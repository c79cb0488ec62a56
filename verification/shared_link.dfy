/**
  Share links for a chat: expiry, validity, creation and the public URL.
  The clock (`Date()`) is the parameter `now` and `UUID()` values are
  parameters; times are whole seconds.
 */
module SharedLinks {
  import opened Wrappers
  import opened Text

  datatype SharedLink = SharedLink(
    id: string,
    chatId: string,
    ownerId: string,
    accessToken: string,
    isActive: bool,
    messageCountAtShare: int,
    createdAt: int,
    updatedAt: int,
    expiresAt: Option<int>)

  const BaseShareUrl: string := "https://webs-xyz.vercel.app/share"

  /** The share URL: the base URL, a slash, then the access token. */
  function ShareUrl(link: SharedLink): (url: string)
    ensures HasPrefix(url, BaseShareUrl + "/")
    ensures url[|BaseShareUrl| + 1..] == link.accessToken
  {
    BaseShareUrl + "/" + link.accessToken
  }

  /** Two links share a URL exactly when they share an access token. */
  lemma ShareUrlInjective(a: SharedLink, b: SharedLink)
    ensures ShareUrl(a) == ShareUrl(b) <==> a.accessToken == b.accessToken
  {
    if ShareUrl(a) == ShareUrl(b) {
      assert ShareUrl(a)[|BaseShareUrl| + 1..] == ShareUrl(b)[|BaseShareUrl| + 1..];
    }
  }

  /** A link without an expiry never expires; otherwise it expires strictly after `expiresAt`. */
  predicate IsExpired(link: SharedLink, now: int)
  {
    match link.expiresAt
    case Some(t) => now > t
    case None => false
  }

  predicate IsValid(link: SharedLink, now: int)
  {
    link.isActive && !IsExpired(link, now)
  }

  /** Once expired, a link stays expired; once invalid, it stays invalid. */
  lemma ExpiryIsPermanent(link: SharedLink, now: int, later: int)
    requires now <= later
    ensures IsExpired(link, now) ==> IsExpired(link, later)
    ensures !IsValid(link, now) ==> !IsValid(link, later)
  {
  }

  /** `createNew(for:ownerId:messageCount:expiresIn:)`. */
  function CreateNew(chatId: string, ownerId: string, messageCount: int, expiresIn: Option<int>,
                     id: string, accessToken: string, now: int): (link: SharedLink)
    ensures link.isActive && link.createdAt == now && link.updatedAt == now
    ensures link.chatId == chatId && link.ownerId == ownerId && link.messageCountAtShare == messageCount
    ensures link.id == id && link.accessToken == accessToken
    ensures link.expiresAt.None? <==> expiresIn.None?
    ensures expiresIn.Some? ==> link.expiresAt == Some(now + expiresIn.value)
  {
    var expiresAt := if expiresIn.Some? then Some(now + expiresIn.value) else None;
    SharedLink(id, chatId, ownerId, accessToken, true, messageCount, now, now, expiresAt)
  }

  /**
    A new link without an expiry is valid at every time; one with an expiry
    of `e` seconds is valid exactly up to and including `e` seconds after
    its creation.
   */
  lemma NewLinkValidity(chatId: string, ownerId: string, messageCount: int, expiresIn: Option<int>,
                        id: string, accessToken: string, now: int, at: int)
    ensures var link := CreateNew(chatId, ownerId, messageCount, expiresIn, id, accessToken, now);
            expiresIn.None? ==> IsValid(link, at)
    ensures var link := CreateNew(chatId, ownerId, messageCount, expiresIn, id, accessToken, now);
            expiresIn.Some? ==> (IsValid(link, at) <==> at <= now + expiresIn.value)
  {
  }

  /** The hash combines only the id. */
  function Hash(link: SharedLink, hasher: string -> int): int
  {
    hasher(link.id)
  }

  lemma HashOnlyId(a: SharedLink, b: SharedLink, hasher: string -> int)
    requires a.id == b.id
    ensures Hash(a, hasher) == Hash(b, hasher)
  {
  }
}
