/**
 * The list of Instagram accounts sent with a raffle signup: the brands of the
 * food court whose raffle is enabled and that have an Instagram handle or URL,
 * in their stored order, followed by seven fixed partner accounts; every
 * handle has one leading `@` stripped. Also the request that carries them.
 */
module RaffleBrands {

  import opened Wrappers
  import opened JsText
  import opened InstagramHandle

  /** The Instagram part of a brand's contact record; either field may be absent. */
  datatype ContactInfo = ContactInfo(instagramHandle: Option<string>, instagramUrl: Option<string>)

  datatype RaffleConfig = RaffleConfig(enabled: bool)

  /** A brand record as the raffle page reads it: `contact` and `raffle` may be absent. */
  datatype Brand = Brand(id: string, name: string, contact: Option<ContactInfo>, raffle: Option<RaffleConfig>)

  /** JavaScript truthiness of an optional string: present and not empty. */
  predicate IsTruthy(o: Option<string>) {
    o.Some? && o.value != ""
  }

  /** `b.raffle?.enabled` */
  predicate RaffleEnabled(b: Brand) {
    b.raffle.Some? && b.raffle.value.enabled
  }

  /** The filter of the signup payload: raffle enabled, and a handle or a URL. */
  predicate Participates(b: Brand) {
    && RaffleEnabled(b)
    && b.contact.Some?
    && (IsTruthy(b.contact.value.instagramHandle) || IsTruthy(b.contact.value.instagramUrl))
  }

  /** The filter of the "Marcas participantes" list on the same page, which asks for a URL. */
  predicate ListedForFollowing(b: Brand) {
    RaffleEnabled(b) && b.contact.Some? && IsTruthy(b.contact.value.instagramUrl)
  }

  /** A brand's handle before the `@` strip: the stored handle when it is truthy,
      otherwise `@` followed by the last path segment of the URL, after one
      trailing `/` is dropped. */
  function RawHandle(b: Brand): string
    requires Participates(b)
  {
    var c := b.contact.value;
    if IsTruthy(c.instagramHandle) then c.instagramHandle.value
    else "@" + LastSegment(DropTrailingSlash(c.instagramUrl.value))
  }

  /** The handle a participating brand contributes to the payload. */
  function PayloadHandle(b: Brand): string
    requires Participates(b)
  {
    StripLeadingAt(RawHandle(b))
  }

  /** A truthy stored handle wins over the URL: one that starts with `@` is
      sent without it, any other is sent unchanged. Without one, the handle is
      exactly the URL's last segment, since the `@` put in front of it is the
      one that is stripped again. */
  lemma PayloadHandleSource(b: Brand)
    requires Participates(b)
    ensures var c, h := b.contact.value, PayloadHandle(b);
      if IsTruthy(c.instagramHandle) then
        var stored := c.instagramHandle.value;
        && (stored[0] == '@' ==> h == stored[1..])
        && (stored[0] != '@' ==> h == stored)
      else
        h == LastSegment(DropTrailingSlash(c.instagramUrl.value)) && '/' !in h
  {
    var c := b.contact.value;
    if !IsTruthy(c.instagramHandle) {
      StripLeadingAtUndoesPrefix(LastSegment(DropTrailingSlash(c.instagramUrl.value)));
    }
  }

  /** The address every profile link on the page starts with. */
  const InstagramProfile := "https://www.instagram.com/"

  /** A profile URL, with or without a trailing `/`, names the account after the
      last `/`. */
  lemma UrlNamesAccount(account: string)
    requires account != [] && '/' !in account
    ensures LastSegment(DropTrailingSlash(InstagramProfile + account)) == account
    ensures LastSegment(DropTrailingSlash(InstagramProfile + account + "/")) == account
  {
    var base := "https://www.instagram.com";
    assert InstagramProfile + account == base + "/" + account;
    LastSegmentAfterSlash(base, account);
    var s := InstagramProfile + account;
    assert DropTrailingSlash(s + "/") == s;
    assert s[|s| - 1] == account[|account| - 1];
  }

  /** A brand known only by its profile URL contributes the account name. */
  lemma UrlOnlyBrandHandle(b: Brand, account: string)
    requires Participates(b) && !IsTruthy(b.contact.value.instagramHandle)
    requires account != [] && '/' !in account
    requires b.contact.value.instagramUrl == Some(InstagramProfile + account)
          || b.contact.value.instagramUrl == Some(InstagramProfile + account + "/")
    ensures PayloadHandle(b) == account
  {
    UrlNamesAccount(account);
    StripLeadingAtUndoesPrefix(account);
  }

  /** The example of a brand entered with only its profile link. */
  lemma UrlOnlyBrandExample()
    ensures var b := Brand("sabor-extremo", "Sabor Extremo Gourmet",
                           Some(ContactInfo(None, Some(InstagramProfile + "saborextremogourmet" + "/"))),
                           Some(RaffleConfig(true)));
      Participates(b) && PayloadHandle(b) == "saborextremogourmet"
  {
    var b := Brand("sabor-extremo", "Sabor Extremo Gourmet",
                   Some(ContactInfo(None, Some(InstagramProfile + "saborextremogourmet" + "/"))),
                   Some(RaffleConfig(true)));
    assert IsTruthy(b.contact.value.instagramUrl);
    UrlOnlyBrandHandle(b, "saborextremogourmet");
  }

  /** `brands.filter(...)`: the participating brands, in their original order. */
  function Participants(bs: seq<Brand>): (ps: seq<Brand>)
    ensures |ps| <= |bs|
    ensures forall b :: b in ps <==> b in bs && Participates(b)
  {
    if bs == [] then []
    else
      var rest := Participants(bs[1..]);
      assert forall b :: b in bs <==> b == bs[0] || b in bs[1..];
      (if Participates(bs[0]) then [bs[0]] else []) + rest
  }

  /** The filter keeps the order: filtering a concatenation filters each part. */
  lemma {:induction false} ParticipantsAppend(xs: seq<Brand>, ys: seq<Brand>)
    ensures Participants(xs + ys) == Participants(xs) + Participants(ys)
  {
    if xs == [] {
      assert xs + ys == ys;
    } else {
      assert (xs + ys)[1..] == xs[1..] + ys;
      ParticipantsAppend(xs[1..], ys);
    }
  }

  /** `.map(...)` over participating brands: each one's payload handle, in order. */
  function PayloadHandles(ps: seq<Brand>): (hs: seq<string>)
    requires forall k :: 0 <= k < |ps| ==> Participates(ps[k])
    ensures |hs| == |ps|
    ensures forall k :: 0 <= k < |ps| ==> hs[k] == PayloadHandle(ps[k])
  {
    if ps == [] then [] else [PayloadHandle(ps[0])] + PayloadHandles(ps[1..])
  }

  /** `.filter(...).map(...)`: the payload handle of every participating brand. */
  function EnabledBrandHandles(bs: seq<Brand>): (hs: seq<string>)
    ensures |hs| == |Participants(bs)|
    ensures forall k :: 0 <= k < |hs| ==> hs[k] == PayloadHandle(Participants(bs)[k])
  {
    var ps := Participants(bs);
    assert forall k :: 0 <= k < |ps| ==> ps[k] in ps;
    PayloadHandles(ps)
  }

  /** Handles come out in the brands' order: the handles of a concatenation are
      the handles of each part, one after the other. */
  lemma EnabledBrandHandlesAppend(xs: seq<Brand>, ys: seq<Brand>)
    ensures EnabledBrandHandles(xs + ys) == EnabledBrandHandles(xs) + EnabledBrandHandles(ys)
  {
    ParticipantsAppend(xs, ys);
    var l, a, b := EnabledBrandHandles(xs + ys), EnabledBrandHandles(xs), EnabledBrandHandles(ys);
    var pa := Participants(xs);
    assert forall k :: 0 <= k < |l| ==> l[k] == (a + b)[k] by {
      forall k | 0 <= k < |l| ensures l[k] == (a + b)[k] {
        if k >= |a| {
          assert Participants(xs + ys)[k] == Participants(ys)[k - |pa|];
        }
      }
    }
  }

  /** Every handle in the list comes from some participating brand. */
  lemma EnabledBrandHandleHasSource(bs: seq<Brand>, h: string)
    requires h in EnabledBrandHandles(bs)
    ensures exists b :: b in bs && Participates(b) && PayloadHandle(b) == h
  {
    var ps, hs := Participants(bs), EnabledBrandHandles(bs);
    var k :| 0 <= k < |hs| && hs[k] == h;
    assert ps[k] in ps;
  }

  /** Every participating brand's handle is in the list. */
  lemma ParticipantHandleListed(bs: seq<Brand>, b: Brand)
    requires b in bs && Participates(b)
    ensures PayloadHandle(b) in EnabledBrandHandles(bs)
  {
    var ps, hs := Participants(bs), EnabledBrandHandles(bs);
    assert b in ps;
    var k :| 0 <= k < |ps| && ps[k] == b;
    assert hs[k] == PayloadHandle(b);
  }

  /** A handle is in the list exactly when some participating brand contributes it. */
  lemma EnabledBrandHandlesMembership(bs: seq<Brand>, h: string)
    ensures h in EnabledBrandHandles(bs) <==> exists b :: b in bs && Participates(b) && PayloadHandle(b) == h
  {
    if h in EnabledBrandHandles(bs) {
      EnabledBrandHandleHasSource(bs, h);
    }
    if exists b :: b in bs && Participates(b) && PayloadHandle(b) == h {
      var b :| b in bs && Participates(b) && PayloadHandle(b) == h;
      ParticipantHandleListed(bs, b);
    }
  }

  /** A brand shown in the list of accounts to follow is always registered; the
      converse fails for a brand with a handle but no URL, which is registered
      without being shown. */
  lemma ListedBrandsParticipate(b: Brand)
    ensures ListedForFollowing(b) ==> Participates(b)
    ensures var hidden := Brand("x", "X", Some(ContactInfo(Some("@x"), None)), Some(RaffleConfig(true)));
      Participates(hidden) && !ListedForFollowing(hidden)
  {}

  /** One of the partner accounts that are not brands of the food court. */
  datatype ExternalBrand = ExternalBrand(name: string, handle: string, url: string)

  /** The partner table, in page order; each handle is `@` followed by the
      account name, and each link is that account's profile address. */
  const ExternalBrands: seq<ExternalBrand> := [
    ExternalBrand("Sabor Extremo Gourmet", "@" + "saborextremogourmet", InstagramProfile + "saborextremogourmet" + "/"),
    ExternalBrand("Fundación FEDI", "@" + "fundacionfedi", InstagramProfile + "fundacionfedi"),
    ExternalBrand("Josué", "@" + "josuee1.6", InstagramProfile + "josuee1.6"),
    ExternalBrand("PC Mobile Colombia", "@" + "pcmobilecolombia", InstagramProfile + "pcmobilecolombia"),
    ExternalBrand("Marden Colombia", "@" + "marden_colombia", InstagramProfile + "marden_colombia"),
    ExternalBrand("Salsamentaria La Mejor", "@" + "salsamentaria_lamejor", InstagramProfile + "salsamentaria_lamejor"),
    ExternalBrand("Car Wash Obrero", "@" + "carwashobrero_", InstagramProfile + "carwashobrero_")
  ]

  /** `externalBrands.map(b => b.handle.replace(/^@/, ''))`: each partner's
      handle without its leading `@`, in table order. */
  function PartnerHandles(es: seq<ExternalBrand>): (hs: seq<string>)
    ensures |hs| == |es|
    ensures forall k :: 0 <= k < |es| ==> hs[k] == StripLeadingAt(es[k].handle)
  {
    if es == [] then [] else [StripLeadingAt(es[0].handle)] + PartnerHandles(es[1..])
  }

  /** The seven partner handles of the page, in table order, without their `@`. */
  lemma ExternalHandlesValue()
    ensures PartnerHandles(ExternalBrands)
         == ["saborextremogourmet", "fundacionfedi", "josuee1.6", "pcmobilecolombia",
             "marden_colombia", "salsamentaria_lamejor", "carwashobrero_"]
  {
    var hs := PartnerHandles(ExternalBrands);
    assert hs[0] == ExternalBrands[0].handle[1..];
    assert hs[1] == ExternalBrands[1].handle[1..];
    assert hs[2] == ExternalBrands[2].handle[1..];
    assert hs[3] == ExternalBrands[3].handle[1..];
    assert hs[4] == ExternalBrands[4].handle[1..];
    assert hs[5] == ExternalBrands[5].handle[1..];
    assert hs[6] == ExternalBrands[6].handle[1..];
  }

  const Referrer := "rifas-page"
  const TenantId := "terraza-eden"

  /** The `input` argument of `createRaffleSignup`. */
  datatype SignupInput = SignupInput(instagram: string, brands: seq<string>, referrer: string)

  /** The variables of the signup mutation. */
  datatype SignupRequest = SignupRequest(input: SignupInput, tenantId: string)

  /** The variables built for an accepted handle, from the brand records and
      the partner table. */
  function BuildRequest(instagram: string, bs: seq<Brand>, partners: seq<ExternalBrand>): SignupRequest {
    SignupRequest(SignupInput(instagram, EnabledBrandHandles(bs) + PartnerHandles(partners), Referrer), TenantId)
  }

  /** The request carries the handle as typed (after trimming, `@` kept), the
      brands' handles in brand order and then the partner handles in table
      order, each missing at most a leading `@`, and the two fixed identifiers. */
  lemma BuildRequestLayout(instagram: string, bs: seq<Brand>, partners: seq<ExternalBrand>)
    ensures var r, ps := BuildRequest(instagram, bs, partners), Participants(bs);
      && r.input.instagram == instagram
      && r.input.referrer == Referrer && r.tenantId == TenantId
      && |r.input.brands| == |ps| + |partners|
      && (forall k :: 0 <= k < |ps| ==> r.input.brands[k] == PayloadHandle(ps[k]))
      && (forall k :: |ps| <= k < |ps| + |partners| ==>
            r.input.brands[k] == StripLeadingAt(partners[k - |ps|].handle))
  {
    var a, e := EnabledBrandHandles(bs), PartnerHandles(partners);
    forall k | |a| <= k < |a| + |e|
      ensures (a + e)[k] == StripLeadingAt(partners[k - |a|].handle)
    {
      assert (a + e)[k] == e[k - |a|];
    }
  }
}
