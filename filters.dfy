/**
 * The access filters (bot/helper/telegram_helper/filters.py) as pure
 * decisions over the sender, the chat, the configuration and the shared
 * tables. None of them changes any state: each is a function of its inputs.
 */
module Filters {
  import opened Wrappers
  import opened Subscriptions

  /** `OWNER_ID`, and `PUBLIC_MIRROR_GROUP_ID` (0 when unset). */
  datatype Config = Config(ownerId: int, publicMirrorGroup: int)

  /** `auth_chats`: authorised chat id -> the thread ids it is limited to (empty: the whole chat). */
  type AuthChats = map<int, seq<int>>

  /** The sender and chat of an update; `threadId` is set only for a topic message. */
  datatype Context = Context(uid: int, chatId: int, chatType: string, threadId: Option<int>)

  /** `owner_filter`. */
  function OwnerFilter(cfg: Config, senderId: int): (ok: bool)
    ensures ok <==> senderId == cfg.ownerId
    ensures ok ==> forall users: Table, sudoUsers: set<int> :: SudoUser(cfg, users, sudoUsers, senderId)
  {
    senderId == cfg.ownerId
  }

  /** `sudo_user`: a sender without a `user_data` entry reads as one without the SUDO flag. */
  function SudoUser(cfg: Config, users: Table, sudoUsers: set<int>, uid: int): (ok: bool)
    ensures ok <==> uid == cfg.ownerId || Entry(users, uid).sudo || uid in sudoUsers
    ensures !ok ==> uid != cfg.ownerId && uid !in sudoUsers && (uid !in users || !users[uid].sudo)
  {
    || uid == cfg.ownerId
    || (uid in users && users[uid].sudo)
    || uid in sudoUsers
  }

  /** `subscriber_user`: staff always, everyone else while subscribed. */
  function SubscriberUser(cfg: Config, users: Table, sudoUsers: set<int>, uid: int, now: int): (ok: bool)
    ensures ok <==> SudoUser(cfg, users, sudoUsers, uid) || IsSubActive(users, uid, now)
    ensures !SudoUser(cfg, users, sudoUsers, uid) ==> (ok <==> IsSubActive(users, uid, now))
  {
    if uid == cfg.ownerId || uid in sudoUsers then true
    else if uid in users && users[uid].sudo then true
    else IsSubActive(users, uid, now)
  }

  /** The chat is the configured free-for-all group. */
  predicate InPublicMirror(cfg: Config, ctx: Context) {
    cfg.publicMirrorGroup != 0 && ctx.chatId == cfg.publicMirrorGroup
  }

  /** An active subscriber in a private chat, or in the group they bound. */
  predicate SubscriberContext(users: Table, ctx: Context, now: int) {
    && IsSubActive(users, ctx.uid, now)
    && (|| ctx.chatType == "private"
        || (ctx.chatType in {"group", "supergroup"} && GetBoundGroup(users, ctx.uid) == Some(ctx.chatId)))
  }

  /** The thread id is set and non-zero (Python truthiness). */
  predicate ThreadSet(ctx: Context) {
    ctx.threadId.Some? && ctx.threadId.value != 0
  }

  /** The grants `authorized_user` checks when neither of the two above applies. */
  predicate Granted(cfg: Config, users: Table, sudoUsers: set<int>, authChats: AuthChats, ctx: Context) {
    || ctx.uid == cfg.ownerId
    || (ctx.uid in users && (users[ctx.uid].auth || users[ctx.uid].sudo))
    || (&& ctx.chatId in users && users[ctx.chatId].auth
        && (ctx.threadId.None? || ctx.threadId.value in users[ctx.chatId].threadIds))
    || ctx.uid in sudoUsers
    || ctx.uid in authChats
    || (&& ctx.chatId in authChats
        && (authChats[ctx.chatId] == []
            || (ThreadSet(ctx) && ctx.threadId.value in authChats[ctx.chatId])))
  }

  /** `authorized_user`, in the source's order of checks. */
  function AuthorizedUser(cfg: Config, users: Table, sudoUsers: set<int>, authChats: AuthChats,
                          ctx: Context, now: int): (ok: bool)
    ensures InPublicMirror(cfg, ctx) ==> ok
    ensures SubscriberContext(users, ctx, now) ==> ok
    ensures !InPublicMirror(cfg, ctx) && !SubscriberContext(users, ctx, now) ==>
              (ok <==> Granted(cfg, users, sudoUsers, authChats, ctx))
  {
    var uid, chatId := ctx.uid, ctx.chatId;
    if cfg.publicMirrorGroup != 0 && chatId == cfg.publicMirrorGroup then true
    else if IsSubActive(users, uid, now) && ctx.chatType == "private" then true
    else if IsSubActive(users, uid, now) && ctx.chatType in {"group", "supergroup"}
         && GetBoundGroup(users, uid).Some? && chatId == GetBoundGroup(users, uid).value then true
    else
      || uid == cfg.ownerId
      || (uid in users && (users[uid].auth || users[uid].sudo))
      || (chatId in users && users[chatId].auth
          && (ctx.threadId.None? || ctx.threadId.value in users[chatId].threadIds))
      || uid in sudoUsers
      || uid in authChats
      || (chatId in authChats
          && ((authChats[chatId] != [] && ctx.threadId.Some? && ctx.threadId.value != 0
               && ctx.threadId.value in authChats[chatId])
              || authChats[chatId] == []))
  }

  /** The owner passes every filter, in every chat. */
  lemma OwnerPassesAll(cfg: Config, users: Table, sudoUsers: set<int>, authChats: AuthChats, ctx: Context, now: int)
    requires OwnerFilter(cfg, ctx.uid)
    ensures SudoUser(cfg, users, sudoUsers, ctx.uid)
    ensures SubscriberUser(cfg, users, sudoUsers, ctx.uid, now)
    ensures AuthorizedUser(cfg, users, sudoUsers, authChats, ctx, now)
  {
  }

  /** Whoever passes `sudo_user` passes `authorized_user` in every chat. */
  lemma SudoIsAuthorized(cfg: Config, users: Table, sudoUsers: set<int>, authChats: AuthChats, ctx: Context, now: int)
    requires SudoUser(cfg, users, sudoUsers, ctx.uid)
    ensures AuthorizedUser(cfg, users, sudoUsers, authChats, ctx, now)
  {
  }

  /** Whoever passes `subscriber_user` passes `authorized_user` in a private chat. */
  lemma SubscriberAuthorizedInPrivate(cfg: Config, users: Table, sudoUsers: set<int>, authChats: AuthChats,
                                      ctx: Context, now: int)
    requires ctx.chatType == "private"
    requires SubscriberUser(cfg, users, sudoUsers, ctx.uid, now)
    ensures AuthorizedUser(cfg, users, sudoUsers, authChats, ctx, now)
  {
  }

  /**
   * In a group chat that is neither the public mirror nor authorised in any
   * table, a user without staff rights gets in exactly when subscribed
   * and bound to that group.
   */
  lemma SubscriberOnlyInBoundGroup(cfg: Config, users: Table, sudoUsers: set<int>, authChats: AuthChats,
                                   ctx: Context, now: int)
    requires ctx.chatType in {"group", "supergroup"} && !InPublicMirror(cfg, ctx)
    requires !SudoUser(cfg, users, sudoUsers, ctx.uid)
    requires ctx.uid !in authChats && ctx.chatId !in authChats && !(ctx.uid in users && users[ctx.uid].auth)
    requires !(ctx.chatId in users && users[ctx.chatId].auth)
    ensures AuthorizedUser(cfg, users, sudoUsers, authChats, ctx, now) <==>
              IsSubActive(users, ctx.uid, now) && GetBoundGroup(users, ctx.uid) == Some(ctx.chatId)
  {
  }
}
