/** `isChatAdmin` with its process-wide cache: the administrator list of one
    chat, reloaded from the messaging service when it is more than five
    minutes old or belongs to another chat. */
module AdminCache {
  import opened Common

  /** Cache lifetime in milliseconds. */
  const TtlMs: int := 300000

  /** The chat whose administrators are cached (`None` before the first
      load), their user ids, and when they were loaded (ms since the epoch). */
  datatype Cache = Cache(timestamp: int, admins: seq<int>, chatId: Option<int>)

  /** The cache as the process starts. */
  const Initial: Cache := Cache(0, [], None)

  /** The reload test: the cache is too old or is for another chat. */
  predicate NeedsReload(c: Cache, chatId: int, now: int) {
    now - c.timestamp > TtlMs || c.chatId != Some(chatId)
  }

  /** The answer to "is userId an administrator of chatId?" at time now, with
      the cache that remains. `fetched` is what `getChatAdministrators` would
      return if it were called, `None` when the call fails. */
  function IsChatAdmin(c: Cache, chatId: int, userId: int, now: int, fetched: Option<seq<int>>)
    : (r: (bool, Cache))
    // the service is consulted only on a reload
    ensures !NeedsReload(c, chatId, now) ==> r.1 == c
    // a failed load answers no and leaves the cache as it was
    ensures NeedsReload(c, chatId, now) && fetched.None? ==> !r.0 && r.1 == c
    // otherwise the answer is membership in the list held afterwards,
    // which is for this chat and fresh at now
    ensures !(NeedsReload(c, chatId, now) && fetched.None?) ==>
      && r.0 == (userId in r.1.admins)
      && !NeedsReload(r.1, chatId, now)
    // and a successful load replaces the cache by the fetched list, stamped
    // with now and this chat
    ensures NeedsReload(c, chatId, now) && fetched.Some? ==>
      r.1 == Cache(now, fetched.value, Some(chatId))
  {
    if NeedsReload(c, chatId, now) then
      match fetched
      case None => (false, c)
      case Some(admins) => (userId in admins, Cache(now, admins, Some(chatId)))
    else
      (userId in c.admins, c)
  }

  /** A reload stores the fetched list for this chat at time now. */
  lemma ReloadStoresFetched(c: Cache, chatId: int, userId: int, now: int, admins: seq<int>)
    requires NeedsReload(c, chatId, now)
    ensures IsChatAdmin(c, chatId, userId, now, Some(admins)) == (userId in admins, Cache(now, admins, Some(chatId)))
  {
  }

  /** Within five minutes of a load, questions about the same chat are
      answered from the cache, whatever the service would say. */
  lemma AnsweredFromCacheWithinTtl(c: Cache, chatId: int, userId: int, now: int, later: int,
                                   fetched: Option<seq<int>>, other: Option<seq<int>>)
    requires c.chatId == Some(chatId) && c.timestamp == now
    requires later - now <= TtlMs
    ensures IsChatAdmin(c, chatId, userId, later, fetched) == (userId in c.admins, c)
    ensures IsChatAdmin(c, chatId, userId, later, fetched) == IsChatAdmin(c, chatId, userId, later, other)
  {
  }
}
