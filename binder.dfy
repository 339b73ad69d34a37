/**
 * The binding of each client to a forum topic of the admin group
 * (src/index.js:88-238): a cache of recently verified bindings in front of the
 * `client_topics` table, strict sends that refuse a message the API put into
 * another thread, and the recreation of a topic when a thread is not routable.
 */
module Binder {
  import opened Wrappers
  import opened Text
  import opened Survey
  import Store
  import opened Transport

  /** How long a verified binding is trusted without a new probe: ten minutes. */
  const TopicCacheTtlMs: int := 10 * 60 * 1000

  /** The text of a probe message (a middle dot). */
  const ProbeText: string := "·"

  /** The heading of the announcement posted into a newly created topic. */
  const NewClientHeading: string := "[new] New client: "

  /** A cached binding: the thread, and until when it is trusted. */
  datatype CacheEntry = CacheEntry(threadId: int, okUntilMs: int)

  /** A message delivered into the thread it was sent to. */
  datatype Sent = Sent(threadId: int, messageId: Option<int>)

  /** The reply reports a message in thread `t`. */
  predicate Routed(reply: Reply, t: int) {
    reply.Delivered? && reply.threadId == Some(t)
  }

  /** The thread a `createForumTopic` reply names, when it is positive. */
  function NewThread(reply: Reply): (t: Option<int>)
    ensures t.Some? <==> reply.Delivered? && reply.threadId.Some? && reply.threadId.value > 0
    ensures t.Some? ==> Routed(reply, t.value)
  {
    if reply.Delivered? && reply.threadId.Some? && reply.threadId.value > 0 then reply.threadId else None
  }

  /** The calls `safeDelete(messageId)` makes: none for a missing or zero id. */
  function DeleteOf(adminGroupId: int, messageId: Option<int>): (calls: seq<Request>)
    ensures |calls| <= 1
    ensures calls != [] <==> messageId.Some? && messageId.value != 0
  {
    if messageId.Some? && messageId.value != 0 then [DeleteMessage(adminGroupId, messageId.value)] else []
  }

  /** The error of a strict send that landed elsewhere; a missing thread prints as "NaN". */
  function Misrouted(what: string, want: int, got: Option<int>): (e: string)
    ensures StartsWith(e, "Misrouted " + what + " want=" + IntToString(want))
  {
    "Misrouted " + what + " want=" + IntToString(want) + " got=" + (if got.Some? then IntToString(got.value) else "NaN")
  }

  /**
   * What a strict send of `req` into thread `t` (positive) did, given the reply:
   * the error the call raised; the message when it is in thread `t`; otherwise the
   * misrouted message is deleted and the send fails.
   */
  predicate StrictSend(adminGroupId: int, before: seq<Request>, after: seq<Request>, reply: Reply,
                       req: Request, t: int, what: string, res: Result<Sent, string>)
  {
    match reply
    case Raised(m) => res == Err(m) && after == before + [req]
    case Delivered(got, id) =>
      if got == Some(t) then res == Ok(Sent(t, id)) && after == before + [req]
      else res == Err(Misrouted(what, t, got)) && after == before + [req] + DeleteOf(adminGroupId, id)
  }

  /** A cached binding still trusted at `now`. */
  predicate Fresh(cache: map<int, CacheEntry>, clientId: int, now: int) {
    clientId in cache && cache[clientId].okUntilMs > now
  }

  /** The thread stored for the client, when there is a row. */
  function Stored(topics: map<int, Store.TopicRow>, clientId: int): (r: Option<int>)
    ensures r.Some? <==> clientId in topics
    ensures r.Some? ==> r.value == topics[clientId].threadId
  {
    if clientId in topics then Some(topics[clientId].threadId) else None
  }

  /** Every cached binding is a positive thread the table binds the client to. */
  ghost predicate CacheBound(cache: map<int, CacheEntry>, topics: map<int, Store.TopicRow>) {
    forall c :: c in cache ==> cache[c].threadId > 0 && c in topics && topics[c].threadId == cache[c].threadId
  }

  /** Storing and caching the same positive thread for a client keeps the cache bound. */
  lemma CacheBoundSet(cache: map<int, CacheEntry>, topics: map<int, Store.TopicRow>, c: int, row: Store.TopicRow, until: int)
    requires CacheBound(cache, topics) && row.threadId > 0
    ensures CacheBound(cache[c := CacheEntry(row.threadId, until)], topics[c := row])
  {
  }

  /** The name under which the survey spreadsheet is sent. */
  function SurveyFileName(clientId: int, sessionId: int): (name: string)
    ensures StartsWith(name, "survey_") && EndsWith(name, ".xlsx")
  {
    "survey_" + IntToString(clientId) + "_" + IntToString(sessionId) + ".xlsx"
  }

  class Binder {
    const store: Store.Store
    const tg: Client
    const adminGroupId: int
    /** `TOPIC_CACHE`: client id to verified binding. */
    var cache: map<int, CacheEntry>

    /** The store is consistent and every cached binding is a positive thread the store binds the client to. */
    ghost predicate Valid()
      reads this`cache, store`topics, store`threadIndex
    {
      store.Valid() && CacheBound(cache, store.topics)
    }

    /** The store binds the client to the thread. */
    predicate Bound(clientId: int, threadId: int)
      reads store`topics
    {
      clientId in store.topics && store.topics[clientId].threadId == threadId
    }

    constructor (store: Store.Store, tg: Client, adminGroupId: int)
      requires store.Valid()
      ensures Valid() && cache == map[]
      ensures this.store == store && this.tg == tg && this.adminGroupId == adminGroupId
    {
      this.store := store;
      this.tg := tg;
      this.adminGroupId := adminGroupId;
      cache := map[];
    }

    /** `safeDelete`: deletes the message from the admin group when it has an id. */
    method SafeDelete(messageId: Option<int>)
      modifies tg`log
      ensures old(tg.log) <= tg.log
      ensures tg.log == old(tg.log) + DeleteOf(adminGroupId, messageId)
      ensures Creates(tg.log) == Creates(old(tg.log))
    {
      if messageId.Some? && messageId.value != 0 {
        var ignored := tg.Call(DeleteMessage(adminGroupId, messageId.value));
      }
    }

    /** A strict send of `req`, which targets thread `t`; `what` names it in the error. */
    method Strict(req: Request, t: int, what: string) returns (res: Result<Sent, string>)
      requires t > 0 && !req.CreateForumTopic?
      modifies tg`log
      ensures old(tg.log) <= tg.log
      ensures StrictSend(adminGroupId, old(tg.log), tg.log, tg.answer(|old(tg.log)|), req, t, what, res)
      ensures Creates(tg.log) == Creates(old(tg.log))
    {
      var reply := tg.Call(req);
      if reply.Raised? {
        return Err(reply.message);
      }
      if reply.threadId == Some(t) {
        return Ok(Sent(t, reply.messageId));
      }
      SafeDelete(reply.messageId);
      return Err(Misrouted(what, t, reply.threadId));
    }

    /** `sendToThreadStrict`: a thread that is not positive is refused without a call. */
    method SendToThreadStrict(threadId: int, text: string) returns (res: Result<Sent, string>)
      modifies tg`log
      ensures old(tg.log) <= tg.log
      ensures threadId <= 0 ==> res == Err("Invalid threadId") && tg.log == old(tg.log)
      ensures threadId > 0 ==> StrictSend(adminGroupId, old(tg.log), tg.log, tg.answer(|old(tg.log)|),
                                          SendMessage(adminGroupId, Some(threadId), text), threadId, "message", res)
      ensures res.Ok? ==> res.value.threadId == threadId
      ensures Creates(tg.log) == Creates(old(tg.log))
    {
      if threadId <= 0 {
        return Err("Invalid threadId");
      }
      res := Strict(SendMessage(adminGroupId, Some(threadId), text), threadId, "message");
    }

    /** `sendDocumentToThreadStrict`: the same guard for a document. */
    method SendDocumentToThreadStrict(threadId: int, fileName: string) returns (res: Result<Sent, string>)
      modifies tg`log
      ensures threadId <= 0 ==> res == Err("Invalid threadId") && tg.log == old(tg.log)
      ensures threadId > 0 ==> StrictSend(adminGroupId, old(tg.log), tg.log, tg.answer(|old(tg.log)|),
                                          SendDocument(adminGroupId, threadId, fileName), threadId, "document", res)
      ensures res.Ok? ==> res.value.threadId == threadId
      ensures Creates(tg.log) == Creates(old(tg.log))
    {
      if threadId <= 0 {
        return Err("Invalid threadId");
      }
      res := Strict(SendDocument(adminGroupId, threadId, fileName), threadId, "document");
    }

    /**
     * `probeThread`: a thread is routable when a probe message lands in it; the
     * probe is then deleted again (a misrouted probe is deleted by the strict send).
     */
    method Probe(threadId: int) returns (ok: bool)
      modifies tg`log
      ensures old(tg.log) <= tg.log
      ensures ok <==> threadId > 0 && Routed(tg.answer(|old(tg.log)|), threadId)
      ensures threadId <= 0 ==> tg.log == old(tg.log)
      ensures threadId > 0 ==> |tg.log| > |old(tg.log)| && tg.log[|old(tg.log)|] == SendMessage(adminGroupId, Some(threadId), ProbeText)
      ensures ok ==> tg.log == old(tg.log) + [SendMessage(adminGroupId, Some(threadId), ProbeText)]
                                            + DeleteOf(adminGroupId, tg.answer(|old(tg.log)|).messageId)
      ensures Creates(tg.log) == Creates(old(tg.log))
    {
      var sent := SendToThreadStrict(threadId, ProbeText);
      if sent.Err? {
        return false;
      }
      SafeDelete(sent.value.messageId);
      return true;
    }

    /** Stores the binding of a new topic and caches it: fails, changing nothing, when another client holds the thread. */
    method Bind(clientId: int, threadId: int, title: string, now: int) returns (ok: bool)
      requires Valid() && threadId > 0
      modifies this`cache, store`topics, store`threadIndex
      ensures Valid()
      ensures ok <==> old(store.ClientByThread(threadId)).None? || old(store.ClientByThread(threadId)) == Some(clientId)
      ensures ok ==> Bound(clientId, threadId) && cache == old(cache)[clientId := CacheEntry(threadId, now + TopicCacheTtlMs)]
      ensures !ok ==> cache == old(cache) && store.topics == old(store.topics)
      ensures store.topics - {clientId} == old(store.topics) - {clientId}
      ensures cache - {clientId} == old(cache) - {clientId}
    {
      ok := store.SetClientTopic(clientId, threadId, title, now);
      if ok {
        CacheBoundSet(cache, old(store.topics), clientId, store.topics[clientId], now + TopicCacheTtlMs);
        cache := cache[clientId := CacheEntry(threadId, now + TopicCacheTtlMs)];
      }
    }

    /**
     * `recreateClientTopic`: creates a topic named after the client, stores and
     * caches the binding, then announces the client in it. A thread id that is not
     * positive, a thread already bound to another client (the unique index on
     * `thread_id`) or a failed announcement is an error.
     */
    method Recreate(clientId: int, user: User, now: int) returns (res: Result<int, string>)
      requires Valid()
      modifies this`cache, store`topics, store`threadIndex, tg`log
      ensures old(tg.log) <= tg.log
      ensures Valid()
      ensures |tg.log| > |old(tg.log)| && tg.log[|old(tg.log)|] == CreateForumTopic(adminGroupId, TopicTitle(clientId))
      ensures Creates(tg.log) == Creates(old(tg.log)) + 1
      ensures res.Ok? ==> res.value > 0 && Routed(tg.answer(|old(tg.log)|), res.value) && Bound(clientId, res.value)
      ensures res.Ok? ==> cache == old(cache)[clientId := CacheEntry(res.value, now + TopicCacheTtlMs)]
      ensures res.Ok? ==> tg.log == old(tg.log) + [CreateForumTopic(adminGroupId, TopicTitle(clientId)),
                                                   SendMessage(adminGroupId, Some(res.value), NewClientHeading + SafeUserLabel(user, clientId))]
      ensures NewThread(tg.answer(|old(tg.log)|)).None? ==>
        res.Err? && tg.log == old(tg.log) + [CreateForumTopic(adminGroupId, TopicTitle(clientId))]
        && store.topics == old(store.topics) && cache == old(cache)
      ensures var t := NewThread(tg.answer(|old(tg.log)|));
        t.Some? && old(store.ClientByThread(t.value)).Some? && old(store.ClientByThread(t.value)) != Some(clientId) ==>
          res == Err("UNIQUE constraint failed: client_topics.thread_id") && store.topics == old(store.topics) && cache == old(cache)
      ensures store.topics - {clientId} == old(store.topics) - {clientId}
      ensures cache - {clientId} == old(cache) - {clientId}
    {
      var created := CreateTopic(clientId);
      if created.Err? {
        return Err(created.error);
      }
      res := BindAndAnnounce(clientId, user, created.value, now);
    }

    /** The first half of `recreateClientTopic`: a topic named after the client, whose thread id must be positive. */
    method CreateTopic(clientId: int) returns (res: Result<int, string>)
      modifies tg`log
      ensures tg.log == old(tg.log) + [CreateForumTopic(adminGroupId, TopicTitle(clientId))]
      ensures Creates(tg.log) == Creates(old(tg.log)) + 1
      ensures res.Ok? <==> NewThread(tg.answer(|old(tg.log)|)).Some?
      ensures res.Ok? ==> res.value == NewThread(tg.answer(|old(tg.log)|)).value
      ensures tg.answer(|old(tg.log)|).Raised? ==> res == Err(tg.answer(|old(tg.log)|).message)
      ensures tg.answer(|old(tg.log)|).Delivered? && res.Err? ==> res == Err("createForumTopic returned invalid message_thread_id")
    {
      var created := tg.Call(CreateForumTopic(adminGroupId, TopicTitle(clientId)));
      if created.Raised? {
        return Err(created.message);
      }
      if created.threadId.None? || created.threadId.value <= 0 {
        return Err("createForumTopic returned invalid message_thread_id");
      }
      return Ok(created.threadId.value);
    }

    /**
     * `recreateClientTopic` as the senders and forwarders rely on it: one topic is
     * created, and on success the client is bound to its positive thread and cached.
     */
    method Reopen(clientId: int, user: User, now: int) returns (res: Result<int, string>)
      requires Valid()
      modifies this`cache, store`topics, store`threadIndex, tg`log
      ensures old(tg.log) <= tg.log
      ensures Valid()
      ensures |tg.log| > |old(tg.log)| && tg.log[|old(tg.log)|] == CreateForumTopic(adminGroupId, TopicTitle(clientId))
      ensures Creates(tg.log) == Creates(old(tg.log)) + 1
      ensures res.Ok? ==> res.value > 0 && Routed(tg.answer(|old(tg.log)|), res.value) && Bound(clientId, res.value)
      ensures res.Ok? ==> cache == old(cache)[clientId := CacheEntry(res.value, now + TopicCacheTtlMs)]
      ensures store.topics - {clientId} == old(store.topics) - {clientId}
      ensures cache - {clientId} == old(cache) - {clientId}
    {
      res := Recreate(clientId, user, now);
    }

    /** The second half of `recreateClientTopic`: binds the new thread to the client, then announces the client in it. */
    method BindAndAnnounce(clientId: int, user: User, tid: int, now: int) returns (res: Result<int, string>)
      requires Valid() && tid > 0
      modifies this`cache, store`topics, store`threadIndex, tg`log
      ensures Valid()
      ensures old(tg.log) <= tg.log
      ensures Creates(tg.log) == Creates(old(tg.log))
      ensures res.Ok? ==> res.value == tid && Bound(clientId, tid)
      ensures res.Ok? ==> cache == old(cache)[clientId := CacheEntry(tid, now + TopicCacheTtlMs)]
      ensures res.Ok? ==> tg.log == old(tg.log) + [SendMessage(adminGroupId, Some(tid), NewClientHeading + SafeUserLabel(user, clientId))]
      ensures old(store.ClientByThread(tid)).Some? && old(store.ClientByThread(tid)) != Some(clientId) ==>
        res == Err("UNIQUE constraint failed: client_topics.thread_id") && store.topics == old(store.topics) && cache == old(cache)
        && tg.log == old(tg.log)
      ensures store.topics - {clientId} == old(store.topics) - {clientId}
      ensures cache - {clientId} == old(cache) - {clientId}
    {
      var ok := Bind(clientId, tid, TopicTitle(clientId), now);
      if !ok {
        return Err("UNIQUE constraint failed: client_topics.thread_id");
      }
      var announced := SendToThreadStrict(tid, NewClientHeading + SafeUserLabel(user, clientId));
      if announced.Err? {
        return Err(announced.error);
      }
      return Ok(tid);
    }

    /**
     * `ensureClientTopic`: a binding trusted at `now` is returned without a call;
     * otherwise a stored positive thread that passes a probe is cached and
     * returned; otherwise the topic is recreated.
     */
    method EnsureClientTopic(clientId: int, user: User, now: int) returns (res: Result<int, string>)
      requires Valid()
      modifies this`cache, store`topics, store`threadIndex, tg`log
      ensures old(tg.log) <= tg.log
      ensures Valid()
      ensures Fresh(old(cache), clientId, now) ==>
        res == Ok(old(cache)[clientId].threadId) && tg.log == old(tg.log) && cache == old(cache) && store.topics == old(store.topics)
      ensures var stored := Stored(old(store.topics), clientId);
        !Fresh(old(cache), clientId, now) && stored.Some? && stored.value > 0 && Routed(tg.answer(|old(tg.log)|), stored.value) ==>
          res == Ok(stored.value) && store.topics == old(store.topics) && Creates(tg.log) == Creates(old(tg.log))
      ensures var stored := Stored(old(store.topics), clientId);
        !Fresh(old(cache), clientId, now) && !(stored.Some? && stored.value > 0 && Routed(tg.answer(|old(tg.log)|), stored.value)) ==>
          Creates(tg.log) == Creates(old(tg.log)) + 1
      ensures Creates(tg.log) <= Creates(old(tg.log)) + 1
      ensures res.Ok? ==> res.value > 0 && Bound(clientId, res.value)
      ensures res.Ok? && !Fresh(old(cache), clientId, now) ==> cache == old(cache)[clientId := CacheEntry(res.value, now + TopicCacheTtlMs)]
      ensures store.topics - {clientId} == old(store.topics) - {clientId}
      ensures cache - {clientId} == old(cache) - {clientId}
    {
      if Fresh(cache, clientId, now) {
        return Ok(cache[clientId].threadId);
      }
      var current := store.ClientTopic(clientId);
      if current.Some? && current.value.threadId > 0 {
        var tid := current.value.threadId;
        var ok := Probe(tid);
        if ok {
          cache := cache[clientId := CacheEntry(tid, now + TopicCacheTtlMs)];
          return Ok(tid);
        }
      }
      res := Reopen(clientId, user, now);
    }

    /**
     * `sendToClientTopic`: sends strictly into the client's topic; when that fails,
     * the topic is recreated once and the text sent again. A success is a message
     * delivered into the thread the store binds the client to.
     */
    method SendToClientTopic(clientId: int, user: User, text: string, now: int) returns (res: Result<Sent, string>)
      requires Valid()
      modifies this`cache, store`topics, store`threadIndex, tg`log
      ensures old(tg.log) <= tg.log
      ensures Valid()
      ensures res.Ok? ==> res.value.threadId > 0 && Bound(clientId, res.value.threadId)
                          && store.ClientByThread(res.value.threadId) == Some(clientId)
      ensures res.Ok? ==> |tg.log| > |old(tg.log)| && tg.log[|tg.log| - 1] == SendMessage(adminGroupId, Some(res.value.threadId), text)
                          && Routed(tg.answer(|tg.log| - 1), res.value.threadId)
      ensures Fresh(old(cache), clientId, now) && Routed(tg.answer(|old(tg.log)|), old(cache)[clientId].threadId) ==>
        res.Ok? && tg.log == old(tg.log) + [SendMessage(adminGroupId, Some(old(cache)[clientId].threadId), text)]
      ensures Fresh(old(cache), clientId, now) && !Routed(tg.answer(|old(tg.log)|), old(cache)[clientId].threadId) ==>
        Creates(tg.log) == Creates(old(tg.log)) + 1
      ensures Creates(tg.log) <= Creates(old(tg.log)) + 2
      ensures store.topics - {clientId} == old(store.topics) - {clientId}
      ensures cache - {clientId} == old(cache) - {clientId}
    {
      var first := EnsureClientTopic(clientId, user, now);
      if first.Err? {
        return Err(first.error);
      }
      var tid := first.value;
      res := SendToThreadStrict(tid, text);
      if res.Ok? {
        return;
      }
      res := SendAgain(clientId, user, text, now);
    }

    /** The second attempt of `sendToClientTopic`: a strict send into a recreated topic. */
    method SendAgain(clientId: int, user: User, text: string, now: int) returns (res: Result<Sent, string>)
      requires Valid()
      modifies this`cache, store`topics, store`threadIndex, tg`log
      ensures old(tg.log) <= tg.log
      ensures Valid()
      ensures res.Ok? ==> res.value.threadId > 0 && Bound(clientId, res.value.threadId)
                          && store.ClientByThread(res.value.threadId) == Some(clientId)
      ensures res.Ok? ==> |tg.log| > |old(tg.log)| && tg.log[|tg.log| - 1] == SendMessage(adminGroupId, Some(res.value.threadId), text)
                          && Routed(tg.answer(|tg.log| - 1), res.value.threadId)
      ensures Creates(tg.log) == Creates(old(tg.log)) + 1
      ensures store.topics - {clientId} == old(store.topics) - {clientId}
      ensures cache - {clientId} == old(cache) - {clientId}
    {
      var second := Reopen(clientId, user, now);
      if second.Err? {
        return Err(second.error);
      }
      res := SendToThreadStrict(second.value, text);
    }

    /**
     * The forwarding part of `forwardClientMessageToTopic`: the client's message is
     * forwarded into its topic; a forward that raises or lands elsewhere (and is
     * deleted) leads to one recreation and a second forward, which must land.
     */
    method ForwardToClientTopic(clientId: int, user: User, messageId: int, now: int) returns (res: Result<Sent, string>)
      requires Valid()
      modifies this`cache, store`topics, store`threadIndex, tg`log
      ensures old(tg.log) <= tg.log
      ensures Valid()
      ensures res.Ok? ==> res.value.threadId > 0 && Bound(clientId, res.value.threadId)
      ensures res.Ok? ==> |tg.log| > |old(tg.log)| && tg.log[|tg.log| - 1] == ForwardMessage(adminGroupId, clientId, messageId, res.value.threadId)
                          && Routed(tg.answer(|tg.log| - 1), res.value.threadId)
      ensures Fresh(old(cache), clientId, now) && Routed(tg.answer(|old(tg.log)|), old(cache)[clientId].threadId) ==>
        res.Ok? && tg.log == old(tg.log) + [ForwardMessage(adminGroupId, clientId, messageId, old(cache)[clientId].threadId)]
      ensures res == Err("Forward misrouted twice") ==> Creates(tg.log) >= Creates(old(tg.log)) + 1
      ensures Creates(tg.log) <= Creates(old(tg.log)) + 2
      ensures store.topics - {clientId} == old(store.topics) - {clientId}
      ensures cache - {clientId} == old(cache) - {clientId}
    {
      var first := EnsureClientTopic(clientId, user, now);
      if first.Err? {
        return Err(first.error);
      }
      res := ForwardInto(clientId, user, messageId, first.value, now);
    }

    /** The first forward into the topic `tid` the client is bound to, and the second attempt when it does not land there. */
    method ForwardInto(clientId: int, user: User, messageId: int, tid: int, now: int) returns (res: Result<Sent, string>)
      requires Valid() && tid > 0 && Bound(clientId, tid)
      modifies this`cache, store`topics, store`threadIndex, tg`log
      ensures old(tg.log) <= tg.log
      ensures Valid()
      ensures res.Ok? ==> res.value.threadId > 0 && Bound(clientId, res.value.threadId)
      ensures res.Ok? ==> |tg.log| > |old(tg.log)| && tg.log[|tg.log| - 1] == ForwardMessage(adminGroupId, clientId, messageId, res.value.threadId)
                          && Routed(tg.answer(|tg.log| - 1), res.value.threadId)
      ensures Routed(tg.answer(|old(tg.log)|), tid) ==>
        res.Ok? && tg.log == old(tg.log) + [ForwardMessage(adminGroupId, clientId, messageId, tid)] && cache == old(cache)
      ensures !Routed(tg.answer(|old(tg.log)|), tid) ==> Creates(tg.log) == Creates(old(tg.log)) + 1
      ensures Creates(tg.log) <= Creates(old(tg.log)) + 1
      ensures store.topics - {clientId} == old(store.topics) - {clientId}
      ensures cache - {clientId} == old(cache) - {clientId}
    {
      var fwd := tg.Call(ForwardMessage(adminGroupId, clientId, messageId, tid));
      if Routed(fwd, tid) {
        return Ok(Sent(tid, fwd.messageId));
      }
      if fwd.Delivered? {
        SafeDelete(fwd.messageId);
      }
      res := ForwardAgain(clientId, user, messageId, now);
    }

    /** The second attempt of `forwardClientMessageToTopic`: into a recreated topic, and a misrouted copy is deleted. */
    method ForwardAgain(clientId: int, user: User, messageId: int, now: int) returns (res: Result<Sent, string>)
      requires Valid()
      modifies this`cache, store`topics, store`threadIndex, tg`log
      ensures old(tg.log) <= tg.log
      ensures Valid()
      ensures res.Ok? ==> res.value.threadId > 0 && Bound(clientId, res.value.threadId)
      ensures res.Ok? ==> |tg.log| > |old(tg.log)| && tg.log[|tg.log| - 1] == ForwardMessage(adminGroupId, clientId, messageId, res.value.threadId)
                          && Routed(tg.answer(|tg.log| - 1), res.value.threadId)
      ensures Creates(tg.log) == Creates(old(tg.log)) + 1
      ensures store.topics - {clientId} == old(store.topics) - {clientId}
      ensures cache - {clientId} == old(cache) - {clientId}
    {
      var second := Reopen(clientId, user, now);
      if second.Err? {
        return Err(second.error);
      }
      res := ForwardLast(clientId, messageId, second.value);
    }

    /** The forward into the recreated topic `tid`: it must land there, and a copy that lands elsewhere is deleted. */
    method ForwardLast(clientId: int, messageId: int, tid: int) returns (res: Result<Sent, string>)
      modifies tg`log
      ensures old(tg.log) <= tg.log
      ensures res.Ok? ==> res.value.threadId == tid
      ensures res.Ok? ==> |tg.log| > |old(tg.log)| && tg.log[|tg.log| - 1] == ForwardMessage(adminGroupId, clientId, messageId, tid)
                          && Routed(tg.answer(|tg.log| - 1), tid)
      ensures Routed(tg.answer(|old(tg.log)|), tid) <==> res.Ok?
      ensures Creates(tg.log) == Creates(old(tg.log))
    {
      var fwd := tg.Call(ForwardMessage(adminGroupId, clientId, messageId, tid));
      if fwd.Raised? {
        return Err(fwd.message);
      }
      if fwd.threadId != Some(tid) {
        SafeDelete(fwd.messageId);
        return Err("Forward misrouted twice");
      }
      return Ok(Sent(tid, fwd.messageId));
    }

    /**
     * `sendSurveyExcelToClientTopic`: with delivery on, the survey spreadsheet is sent
     * strictly into `threadId`; on failure the topic is recreated and it is sent once more.
     */
    method SendSurveyExcel(sendExcel: bool, clientId: int, user: User, threadId: int, sessionId: int, now: int)
      returns (res: Result<Option<Sent>, string>)
      requires Valid()
      modifies this`cache, store`topics, store`threadIndex, tg`log
      ensures Valid()
      ensures res == Ok(None) <==> !sendExcel
      ensures !sendExcel ==> tg.log == old(tg.log) && cache == old(cache) && store.topics == old(store.topics)
      ensures res.Ok? && res.value.Some? ==>
        |tg.log| > 0 && tg.log[|tg.log| - 1] == SendDocument(adminGroupId, res.value.value.threadId, SurveyFileName(clientId, sessionId))
        && Routed(tg.answer(|tg.log| - 1), res.value.value.threadId)
      ensures sendExcel && threadId > 0 && Routed(tg.answer(|old(tg.log)|), threadId) ==>
        res == Ok(Some(Sent(threadId, tg.answer(|old(tg.log)|).messageId)))
        && tg.log == old(tg.log) + [SendDocument(adminGroupId, threadId, SurveyFileName(clientId, sessionId))]
      ensures Creates(tg.log) <= Creates(old(tg.log)) + 1
      ensures store.topics - {clientId} == old(store.topics) - {clientId}
      ensures cache - {clientId} == old(cache) - {clientId}
    {
      if !sendExcel {
        return Ok(None);
      }
      var fileName := SurveyFileName(clientId, sessionId);
      var sent := SendDocumentToThreadStrict(threadId, fileName);
      if sent.Ok? {
        return Ok(Some(sent.value));
      }
      var again := SendDocumentAgain(clientId, user, fileName, now);
      if again.Err? {
        return Err(again.error);
      }
      return Ok(Some(again.value));
    }

    /** The retry of `sendSurveyExcelToClientTopic`: the topic is recreated and the document sent into the new one. */
    method SendDocumentAgain(clientId: int, user: User, fileName: string, now: int) returns (res: Result<Sent, string>)
      requires Valid()
      modifies this`cache, store`topics, store`threadIndex, tg`log
      ensures Valid()
      ensures res.Ok? ==>
        |tg.log| > 0 && tg.log[|tg.log| - 1] == SendDocument(adminGroupId, res.value.threadId, fileName)
        && Routed(tg.answer(|tg.log| - 1), res.value.threadId)
      ensures Creates(tg.log) == Creates(old(tg.log)) + 1
      ensures store.topics - {clientId} == old(store.topics) - {clientId}
      ensures cache - {clientId} == old(cache) - {clientId}
    {
      var second := Reopen(clientId, user, now);
      if second.Err? {
        return Err(second.error);
      }
      res := SendDocumentToThreadStrict(second.value, fileName);
    }
  }
}
