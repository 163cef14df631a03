/**
 * The ShareLink document: a public or invite link to an event, with an
 * optional expiry, an optional use cap and a use counter, and the validity
 * test every resolve applies.
 *
 * Instants are integers on one time line; `isAfter` is strict.
 */
module ShareLinks {

  import opened Wrappers

  datatype LinkType = Public | Invite {
    /** The name of the Java enum constant. */
    function Name(): string {
      match this
      case Public => "PUBLIC"
      case Invite => "INVITE"
    }
  }

  datatype Scope = View | Join | ViewJoin {
    /** The name of the Java enum constant. */
    function Name(): string {
      match this
      case View => "VIEW"
      case Join => "JOIN"
      case ViewJoin => "VIEW_JOIN"
    }
  }

  /**
   * A stored share link; `None` stands for `null`. `codeHash` is the hex
   * SHA-256 of an invite link's code, absent for public links.
   */
  datatype ShareLink = ShareLink(
    id: string,
    eventId: string,
    createdByUserId: Option<string>,
    linkType: LinkType,
    scope: Scope,
    codeHash: Option<string>,
    expiresAt: Option<int>,
    maxUses: Option<int>,
    uses: Option<int>,
    disabled: bool,
    channel: Option<string>,
    campaign: Option<string>)

  /** `new ShareLink()` for an event, stored under `id`: the field initialisers' values. */
  function NewShareLink(id: string, eventId: string): (l: ShareLink)
    ensures l.linkType == Invite && l.scope == View && l.uses == Some(0) && !l.disabled
    ensures l.expiresAt.None? && l.maxUses.None? && l.codeHash.None? && l.createdByUserId.None?
  {
    ShareLink(id, eventId, None, Invite, View, None, None, None, Some(0), false, None, None)
  }

  /** `isValidAt(now)`. */
  predicate IsValidAt(l: ShareLink, now: int) {
    if l.disabled then false
    else if l.expiresAt.Some? && now > l.expiresAt.value then false
    else if l.maxUses.Some? && l.uses.Some? && l.uses.value >= l.maxUses.value then false
    else true
  }

  /** A fresh link is valid at every instant. */
  lemma NewLinkValid(id: string, eventId: string, now: int)
    ensures IsValidAt(NewShareLink(id, eventId), now)
  {
  }

  /** Validity is exactly: enabled, not past its expiry, and below its cap when both counts are set. */
  lemma ValidityCharacterised(l: ShareLink, now: int)
    ensures IsValidAt(l, now) <==>
      !l.disabled
      && (l.expiresAt.None? || now <= l.expiresAt.value)
      && (l.maxUses.None? || l.uses.None? || l.uses.value < l.maxUses.value)
  {
  }

  /** A link stays invalid later in time. */
  lemma InvalidStaysInvalidLater(l: ShareLink, now: int, later: int)
    requires now <= later && !IsValidAt(l, now)
    ensures !IsValidAt(l, later)
  {
  }

  /** A link stays invalid with more uses. */
  lemma InvalidStaysInvalidWithMoreUses(l: ShareLink, now: int, more: int)
    requires l.uses.GetOr(0) <= more && !IsValidAt(l, now)
    ensures !IsValidAt(l.(uses := Some(more)), now)
  {
  }
}
