/**
 * ShareLinkController: owners create, list and revoke share links for their
 * events; anyone holding an invite code resolves it (JSON) or follows it
 * (redirect), and each resolve of a valid link counts one use.
 *
 * The link repository is the `links` sequence; `findById` and
 * `findByCodeHash` return its first match. Events are given as a map from
 * event id to the event's creator. The caller's lookup happens before these
 * methods: `None` stands for a caller that was not found. SHA-256 and the
 * random code generator are supplied from outside.
 */
module ShareLinkApi {

  import opened Wrappers
  import opened Text
  import opened ShareLinks

  const DefaultBaseUrl := "https://planbana.com"
  const IllegalArgument := "IllegalArgumentException"
  const CallerNotFound := "User not found"
  const EventNotFound := "Event not found"
  const LinkNotFound := "Share link not found"
  const NotEventOwner := "Not event owner"
  const Revoked := "revoked"

  /** `trimTrailingSlash`: drops one trailing "/", if any; `null` stays `null`. */
  function TrimTrailingSlash(s: Option<string>): (r: Option<string>)
    ensures s.None? <==> r.None?
    ensures s.Some? && EndsWith(s.value, "/") ==> r.value + "/" == s.value
    ensures s.Some? && !EndsWith(s.value, "/") ==> r == s
  {
    if s.Some? && EndsWith(s.value, "/") then Some(s.value[..|s.value| - 1]) else s
  }

  /** Only one slash goes: a base URL ending in "//" keeps one of them. */
  lemma TrimTrailingSlashOnce(base: string)
    ensures TrimTrailingSlash(Some(base + "//")) == Some(base + "/")
  {
    assert (base + "//")[|base + "//"| - 1..] == "/";
    assert (base + "//")[..|base + "//"| - 1] == base + "/";
  }

  /** The trimmed, upper-cased text `valueOf` receives. */
  function EnumText(s: string): string {
    ToUpper(Trim(s))
  }

  /** `parseType`: INVITE for a null or blank text; `None` when `valueOf` throws. */
  function ParseType(s: Option<string>): (t: Option<LinkType>)
    ensures NullOrBlank(s) ==> t == Some(Invite)
    ensures !NullOrBlank(s) ==> (t.Some? <==> EnumText(s.value) in {"PUBLIC", "INVITE"})
    ensures !NullOrBlank(s) && t.Some? ==> t.value.Name() == EnumText(s.value)
  {
    if NullOrBlank(s) then Some(Invite)
    else if EnumText(s.value) == "PUBLIC" then Some(Public)
    else if EnumText(s.value) == "INVITE" then Some(Invite)
    else None
  }

  /** `parseScope`: VIEW for a null or blank text; `None` when `valueOf` throws. */
  function ParseScope(s: Option<string>): (sc: Option<Scope>)
    ensures NullOrBlank(s) ==> sc == Some(View)
    ensures !NullOrBlank(s) ==> (sc.Some? <==> EnumText(s.value) in {"VIEW", "JOIN", "VIEW_JOIN"})
    ensures !NullOrBlank(s) && sc.Some? ==> sc.value.Name() == EnumText(s.value)
  {
    if NullOrBlank(s) then Some(View)
    else if EnumText(s.value) == "VIEW" then Some(View)
    else if EnumText(s.value) == "JOIN" then Some(Join)
    else if EnumText(s.value) == "VIEW_JOIN" then Some(ViewJoin)
    else None
  }

  /** A name made of upper-case ASCII letters and underscores is its own enum text, and is not blank. */
  lemma EnumTextOfName(name: string)
    requires name != [] && forall c :: c in name ==> 'A' <= c <= 'Z' || c == '_'
    ensures EnumText(name) == name && !IsBlank(name)
  {
    assert forall i :: 0 <= i < |name| ==> name[i] in name;
    TrimNoop(name);
    ToUpperNoop(name);
    assert !IsJavaWhitespace(name[0]);
  }

  lemma ParseTypeOf(s: string, t: LinkType)
    requires !IsBlank(s) && EnumText(s) == t.Name()
    ensures ParseType(Some(s)) == Some(t)
  {
  }

  /** Every link type parses back from its own name. */
  lemma ParseTypeName(t: LinkType)
    ensures ParseType(Some(t.Name())) == Some(t)
  {
    var name := t.Name();
    EnumTextOfName(name);
    ParseTypeOf(name, t);
  }

  lemma ParseScopeOf(s: string, sc: Scope)
    requires !IsBlank(s) && EnumText(s) == sc.Name()
    ensures ParseScope(Some(s)) == Some(sc)
  {
  }

  /** Every scope parses back from its own name. */
  lemma ParseScopeName(sc: Scope)
    ensures ParseScope(Some(sc.Name())) == Some(sc)
  {
    var name := sc.Name();
    EnumTextOfName(name);
    ParseScopeOf(name, sc);
  }

  /** The web URL of an invite link. */
  function InviteUrl(base: string, code: string): string {
    base + "/i/" + code
  }

  /** The web URL of a public link. */
  function PublicUrl(base: string, eventId: string): string {
    base + "/e/" + eventId
  }

  /** The body of a create request; `None` stands for `null`. */
  datatype CreateRequest = CreateRequest(
    linkType: Option<string>,
    scope: Option<string>,
    expiresAt: Option<int>,
    maxUses: Option<int>,
    channel: Option<string>,
    campaign: Option<string>)

  /** A `ShareLinkResponse`; `url` and `code` are `None` where the controller leaves them `null`. */
  datatype LinkResponse = LinkResponse(
    id: string,
    url: Option<string>,
    linkType: string,
    scope: string,
    expiresAt: Option<int>,
    maxUses: Option<int>,
    uses: Option<int>,
    disabled: bool,
    code: Option<string>)

  datatype ResolveResponse = ResolveResponse(valid: bool, eventId: Option<string>, scope: Option<string>, expiresAt: Option<int>, maxUses: Option<int>)

  /** The response for an unknown code: invalid, every other field `null`. */
  const UnknownCode := ResolveResponse(false, None, None, None, None)

  datatype Failure = Error(httpStatus: nat, reason: string) | Thrown(exception: string)

  datatype Reply<T> = Ok(value: T) | Failed(failure: Failure)

  /**
   * `getCaller` and `requireOwner` for the event `eventId`, in that order,
   * with the event lookup between them. `None` means the caller owns it.
   */
  function OwnerCheck(callerId: Option<string>, events: map<string, Option<string>>, eventId: string): (f: Option<Failure>)
    ensures f.None? <==> callerId.Some? && eventId in events && events[eventId] == callerId
    ensures callerId.None? ==> f == Some(Error(401, CallerNotFound))
    ensures callerId.Some? && eventId !in events ==> f == Some(Error(404, EventNotFound))
  {
    if callerId.None? then Some(Error(401, CallerNotFound))
    else if eventId !in events then Some(Error(404, EventNotFound))
    else if events[eventId] != callerId then Some(Error(403, NotEventOwner))
    else None
  }

  /** The index `findById` returns. */
  function FindById(links: seq<ShareLink>, id: string): Option<nat> {
    FirstIndex(links, (l: ShareLink) => l.id == id)
  }

  /** The index `findByCodeHash` returns. */
  function FindByCodeHash(links: seq<ShareLink>, h: string): Option<nat> {
    FirstIndex(links, (l: ShareLink) => l.codeHash == Some(h))
  }

  /** A lookup by code hash only reads the code hashes. */
  lemma {:induction false} FindByCodeHashSameHashes(a: seq<ShareLink>, b: seq<ShareLink>, h: string)
    requires |a| == |b| && forall j :: 0 <= j < |a| ==> a[j].codeHash == b[j].codeHash
    ensures FindByCodeHash(a, h) == FindByCodeHash(b, h)
  {
    if a != [] && a[0].codeHash != Some(h) {
      FindByCodeHashSameHashes(a[1..], b[1..], h);
    }
  }

  /** The link after one resolve or redirect at `now`: one more use when valid, untouched otherwise. */
  function Use(l: ShareLink, now: int): (l': ShareLink)
    ensures IsValidAt(l, now) ==> l' == l.(uses := Some(l.uses.GetOr(0) + 1))
    ensures !IsValidAt(l, now) ==> l' == l
  {
    if IsValidAt(l, now) then l.(uses := Some(l.uses.GetOr(0) + 1)) else l
  }

  /** The link after a resolve at each of `times`, in order. */
  function UseAll(l: ShareLink, times: seq<int>): ShareLink
    decreases |times|
  {
    if times == [] then l else UseAll(Use(l, times[0]), times[1..])
  }

  /** With a cap `m` and a count not above it, no sequence of resolves takes the count past `m`. */
  lemma {:induction false} UsesNeverPassCap(l: ShareLink, times: seq<int>)
    requires l.maxUses.Some? && l.uses.Some? && l.uses.value <= l.maxUses.value
    ensures var l' := UseAll(l, times);
      l'.uses.Some? && l.uses.value <= l'.uses.value <= l.maxUses.value && l'.maxUses == l.maxUses
    decreases |times|
  {
    if times != [] {
      UsesNeverPassCap(Use(l, times[0]), times[1..]);
    }
  }

  /** Resolves count exactly the valid ones: a disabled link is never counted. */
  lemma {:induction false} DisabledNeverCounted(l: ShareLink, times: seq<int>)
    requires l.disabled
    ensures UseAll(l, times) == l
    decreases |times|
  {
    if times != [] {
      DisabledNeverCounted(Use(l, times[0]), times[1..]);
    }
  }

  /** `resolve` on the link with hash `h`: the response and the links afterwards. */
  function ResolveStep(links: seq<ShareLink>, h: string, now: int): (r: (ResolveResponse, seq<ShareLink>))
    ensures FindByCodeHash(links, h).None? ==> r == (UnknownCode, links)
    ensures FindByCodeHash(links, h).Some? ==>
      var i := FindByCodeHash(links, h).value;
      r.1 == links[i := Use(links[i], now)]
      && r.0 == ResolveResponse(IsValidAt(links[i], now), Some(links[i].eventId), Some(links[i].scope.Name()),
                                links[i].expiresAt, links[i].maxUses)
  {
    match FindByCodeHash(links, h)
    case None => (UnknownCode, links)
    case Some(i) =>
      var sl := links[i];
      (ResolveResponse(IsValidAt(sl, now), Some(sl.eventId), Some(sl.scope.Name()), sl.expiresAt, sl.maxUses),
       links[i := Use(sl, now)])
  }

  /** The links after `revoke` of the link at `i`. */
  function RevokeAt(links: seq<ShareLink>, i: nat): (r: seq<ShareLink>)
    requires i < |links|
    ensures |r| == |links| && r[i] == links[i].(disabled := true)
    ensures forall j :: 0 <= j < |links| && j != i ==> r[j] == links[j]
  {
    links[i := links[i].(disabled := true)]
  }

  /** Once a link is revoked, resolving its code reports it invalid and counts nothing. */
  lemma ResolveAfterRevoke(links: seq<ShareLink>, h: string, now: int)
    requires FindByCodeHash(links, h).Some?
    ensures var revoked := RevokeAt(links, FindByCodeHash(links, h).value);
      var r := ResolveStep(revoked, h, now);
      !r.0.valid && r.1 == revoked
  {
    var i := FindByCodeHash(links, h).value;
    var revoked := RevokeAt(links, i);
    FindByCodeHashSameHashes(links, revoked, h);
    assert revoked[i := Use(revoked[i], now)] == revoked;
  }

  /** The row `list` reports for a link: a URL for public links only. */
  function ListItem(base: string, l: ShareLink): (r: LinkResponse)
    ensures r.url.Some? <==> l.linkType == Public
    ensures r.url.Some? ==> r.url.value == PublicUrl(base, l.eventId)
    ensures r.code.None? && r.id == l.id && r.uses == l.uses && r.disabled == l.disabled
  {
    LinkResponse(l.id, if l.linkType == Public then Some(PublicUrl(base, l.eventId)) else None,
                 l.linkType.Name(), l.scope.Name(), l.expiresAt, l.maxUses, l.uses, l.disabled, None)
  }

  /** `findByEventIdAndCreatedByUserId`: the caller's links for the event. */
  function LinksOf(links: seq<ShareLink>, eventId: string, callerId: string): (r: seq<ShareLink>)
    ensures forall l :: l in r <==> l in links && l.eventId == eventId && l.createdByUserId == Some(callerId)
  {
    if links == [] then []
    else
      var rest := LinksOf(links[1..], eventId, callerId);
      assert forall l :: l in links <==> l == links[0] || l in links[1..];
      if links[0].eventId == eventId && links[0].createdByUserId == Some(callerId) then [links[0]] + rest else rest
  }

  /** The list response for `links`, in order. */
  function ListItems(base: string, links: seq<ShareLink>): (r: seq<LinkResponse>)
    ensures |r| == |links| && forall i :: 0 <= i < |links| ==> r[i] == ListItem(base, links[i])
  {
    if links == [] then [] else [ListItem(base, links[0])] + ListItems(base, links[1..])
  }

  /** `list` never reveals a URL for an invite link, and every public link's URL is its event page. */
  lemma ListHidesInviteUrls(base: string, links: seq<ShareLink>, eventId: string, callerId: string)
    ensures var items := ListItems(base, LinksOf(links, eventId, callerId));
      forall i :: 0 <= i < |items| ==>
        (items[i].url.Some? <==> items[i].linkType == "PUBLIC")
        && (items[i].url.Some? ==> items[i].url.value == PublicUrl(base, eventId))
  {
    var own := LinksOf(links, eventId, callerId);
    forall i | 0 <= i < |own|
      ensures own[i].eventId == eventId
    {
      assert own[i] in own;
    }
  }

  /** The link `create` stores, before the repository assigns it `id`. */
  function CreatedLink(id: string, eventId: string, callerId: string, t: LinkType, sc: Scope, req: CreateRequest, codeHash: Option<string>): (l: ShareLink)
    ensures l.linkType == t && l.scope == sc && l.uses == Some(0) && !l.disabled
    ensures l.eventId == eventId && l.createdByUserId == Some(callerId)
    ensures l.expiresAt == req.expiresAt && l.maxUses == req.maxUses
  {
    NewShareLink(id, eventId).(createdByUserId := Some(callerId), linkType := t, scope := sc,
      expiresAt := req.expiresAt, maxUses := req.maxUses, channel := req.channel, campaign := req.campaign,
      codeHash := codeHash)
  }

  /** A fresh link is valid until its expiry when its cap is positive or absent. */
  lemma CreatedLinkValid(id: string, eventId: string, callerId: string, t: LinkType, sc: Scope, req: CreateRequest, codeHash: Option<string>, now: int)
    requires req.expiresAt.None? || now <= req.expiresAt.value
    requires req.maxUses.None? || req.maxUses.value > 0
    ensures IsValidAt(CreatedLink(id, eventId, callerId, t, sc, req, codeHash), now)
  {
  }

  class ShareLinkController {
    /** `publicBaseUrl`, without its trailing slash. */
    const publicBaseUrl: string
    const sha256Hex: string -> string
    var links: seq<ShareLink>

    /** `configured` is the `app.publicBaseUrl` property, `None` when it is unset. */
    constructor (configured: Option<string>, sha256Hex: string -> string, links: seq<ShareLink>)
      ensures Some(publicBaseUrl) == TrimTrailingSlash(Some(configured.GetOr(DefaultBaseUrl)))
      ensures this.sha256Hex == sha256Hex && this.links == links
    {
      publicBaseUrl := TrimTrailingSlash(Some(configured.GetOr(DefaultBaseUrl))).value;
      this.sha256Hex := sha256Hex;
      this.links := links;
    }

    /**
     * `create`: `newId` is the id the repository assigns and `code` the
     * random invite code, used only for invite links.
     */
    method Create(callerId: Option<string>, events: map<string, Option<string>>, eventId: string, req: CreateRequest,
                  newId: string, code: string) returns (resp: Reply<LinkResponse>)
      modifies this`links
      ensures OwnerCheck(callerId, events, eventId).Some? ==>
        resp == Failed(OwnerCheck(callerId, events, eventId).value) && links == old(links)
      ensures OwnerCheck(callerId, events, eventId).None? && (ParseType(req.linkType).None? || ParseScope(req.scope).None?) ==>
        resp == Failed(Thrown(IllegalArgument)) && links == old(links)
      ensures OwnerCheck(callerId, events, eventId).None? && ParseType(req.linkType).Some? && ParseScope(req.scope).Some? ==>
        var t := ParseType(req.linkType).value;
        var stored := CreatedLink(newId, eventId, callerId.value, t, ParseScope(req.scope).value, req,
                                  if t == Invite then Some(sha256Hex(code)) else None);
        links == old(links) + [stored]
        && resp.Ok? && resp.value.id == newId && resp.value.uses == Some(0) && !resp.value.disabled
        && resp.value.url == Some(if t == Invite then InviteUrl(publicBaseUrl, code) else PublicUrl(publicBaseUrl, eventId))
        && resp.value.code == (if t == Invite then Some(code) else None)
        && resp.value.linkType == t.Name() && resp.value.scope == ParseScope(req.scope).value.Name()
    {
      var f := OwnerCheck(callerId, events, eventId);
      if f.Some? {
        return Failed(f.value);
      }
      var t := ParseType(req.linkType);
      if t.None? {
        return Failed(Thrown(IllegalArgument));
      }
      var sc := ParseScope(req.scope);
      if sc.None? {
        return Failed(Thrown(IllegalArgument));
      }
      var invite: Option<string> := None;
      if t.value == Invite {
        invite := Some(code);
      }
      var sl := CreatedLink(newId, eventId, callerId.value, t.value, sc.value, req,
                            if invite.Some? then Some(sha256Hex(invite.value)) else None);
      links := links + [sl];
      var url := if t.value == Invite then publicBaseUrl + "/i/" + code else publicBaseUrl + "/e/" + eventId;
      resp := Ok(LinkResponse(sl.id, Some(url), t.value.Name(), sc.value.Name(), sl.expiresAt, sl.maxUses,
                              sl.uses, sl.disabled, invite));
    }

    /** `list`: the caller's links for the event, one row each. */
    method List(callerId: Option<string>, events: map<string, Option<string>>, eventId: string) returns (resp: Reply<seq<LinkResponse>>)
      ensures OwnerCheck(callerId, events, eventId).Some? ==> resp == Failed(OwnerCheck(callerId, events, eventId).value)
      ensures OwnerCheck(callerId, events, eventId).None? ==>
        resp == Ok(ListItems(publicBaseUrl, LinksOf(links, eventId, callerId.value)))
    {
      var f := OwnerCheck(callerId, events, eventId);
      if f.Some? {
        return Failed(f.value);
      }
      var all := LinksOf(links, eventId, callerId.value);
      var out: seq<LinkResponse> := [];
      for i := 0 to |all|
        invariant out == ListItems(publicBaseUrl, all[..i])
      {
        ListItemsAppend(publicBaseUrl, all[..i], all[i]);
        assert all[..i + 1] == all[..i] + [all[i]];
        var sl := all[i];
        var r := LinkResponse(sl.id, None, sl.linkType.Name(), sl.scope.Name(), sl.expiresAt, sl.maxUses,
                              sl.uses, sl.disabled, None);
        r := r.(url := if sl.linkType == Public then Some(publicBaseUrl + "/e/" + sl.eventId) else None);
        out := out + [r];
      }
      assert all[..|all|] == all;
      resp := Ok(out);
    }

    /** `revoke`: the caller must own the link's event. */
    method Revoke(callerId: Option<string>, events: map<string, Option<string>>, shareLinkId: string) returns (resp: Reply<string>)
      modifies this`links
      ensures callerId.None? ==> resp == Failed(Error(401, CallerNotFound)) && links == old(links)
      ensures callerId.Some? && FindById(old(links), shareLinkId).None? ==>
        resp == Failed(Error(404, LinkNotFound)) && links == old(links)
      ensures callerId.Some? && FindById(old(links), shareLinkId).Some? ==>
        var i := FindById(old(links), shareLinkId).value;
        var f := OwnerCheck(callerId, events, old(links)[i].eventId);
        (f.Some? ==> resp == Failed(f.value) && links == old(links))
        && (f.None? ==> resp == Ok(Revoked) && links == RevokeAt(old(links), i))
    {
      if callerId.None? {
        return Failed(Error(401, CallerNotFound));
      }
      var i := FindById(links, shareLinkId);
      if i.None? {
        return Failed(Error(404, LinkNotFound));
      }
      var sl := links[i.value];
      var f := OwnerCheck(callerId, events, sl.eventId);
      if f.Some? {
        return Failed(f.value);
      }
      links := links[i.value := sl.(disabled := true)];
      resp := Ok(Revoked);
    }

    /** `resolve` of an invite code at the instant `now`. */
    method Resolve(code: string, now: int) returns (resp: ResolveResponse)
      modifies this`links
      ensures (resp, links) == ResolveStep(old(links), sha256Hex(code), now)
    {
      var h := sha256Hex(code);
      var i := FindByCodeHash(links, h);
      if i.None? {
        return UnknownCode;
      }
      var sl := links[i.value];
      var ok := IsValidAt(sl, now);
      if ok {
        links := links[i.value := sl.(uses := Some(sl.uses.GetOr(0) + 1))];
      } else {
        assert links == links[i.value := Use(sl, now)];
      }
      resp := ResolveResponse(ok, Some(sl.eventId), Some(sl.scope.Name()), sl.expiresAt, sl.maxUses);
    }

    /** `redirect` of an invite code at `now`: counts like `resolve`, then points at the invite page. */
    method Redirect(code: string, now: int) returns (location: string)
      modifies this`links
      ensures links == ResolveStep(old(links), sha256Hex(code), now).1
      ensures location == InviteUrl(publicBaseUrl, code)
    {
      var h := sha256Hex(code);
      var i := FindByCodeHash(links, h);
      if i.Some? {
        var sl := links[i.value];
        if IsValidAt(sl, now) {
          links := links[i.value := sl.(uses := Some(sl.uses.GetOr(0) + 1))];
        } else {
          assert links == links[i.value := Use(sl, now)];
        }
      }
      location := publicBaseUrl + "/i/" + code;
    }
  }

  lemma {:induction false} ListItemsAppend(base: string, links: seq<ShareLink>, l: ShareLink)
    ensures ListItems(base, links + [l]) == ListItems(base, links) + [ListItem(base, l)]
  {
    var a := ListItems(base, links + [l]);
    var b := ListItems(base, links) + [ListItem(base, l)];
    assert |a| == |b|;
    forall i | 0 <= i < |a|
      ensures a[i] == b[i]
    {
      if i < |links| {
        assert (links + [l])[i] == links[i];
      }
    }
  }
}
