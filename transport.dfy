/**
 * The Bot API as the handlers see it (the `tg.*` calls of src/index.js): each call
 * is recorded in a log, and what it returns is an oracle indexed by the call's
 * position, so a message the API reports in another thread than the one asked for
 * (a misrouted message) is an input of the model like any other reply.
 */
module Transport {
  import opened Wrappers

  /** A Bot API request the bot makes. */
  datatype Request =
    | SendMessage(chatId: int, topic: Option<int>, text: string)
    | SendDocument(chatId: int, threadId: int, fileName: string)
    | ForwardMessage(chatId: int, fromChatId: int, messageId: int, threadId: int)
    | CopyMessage(chatId: int, fromChatId: int, messageId: int)
    | CreateForumTopic(chatId: int, name: string)
    | DeleteMessage(chatId: int, messageId: int)

  /**
   * What a call produced: the message or topic the API reports, with its
   * `message_thread_id` and `message_id` when present, or the error the call
   * raised (after the retries of `callRaw`).
   */
  datatype Reply = Delivered(threadId: Option<int>, messageId: Option<int>) | Raised(message: string)

  class Client {
    /** The reply to the n-th call of the run. */
    const answer: nat -> Reply
    /** Every call made so far, in order. */
    var log: seq<Request>

    constructor (answer: nat -> Reply)
      ensures this.answer == answer && log == []
    {
      this.answer := answer;
      log := [];
    }

    method Call(r: Request) returns (reply: Reply)
      modifies this`log
      ensures log == old(log) + [r]
      ensures reply == answer(|old(log)|)
      ensures Creates(log) == Creates(old(log)) + (if r.CreateForumTopic? then 1 else 0)
    {
      reply := answer(|log|);
      log := log + [r];
      assert log[..|log| - 1] == old(log);
    }
  }

  /** How many forum topics a sequence of calls creates. */
  function Creates(calls: seq<Request>): nat {
    if calls == [] then 0
    else Creates(calls[..|calls| - 1]) + (if calls[|calls| - 1].CreateForumTopic? then 1 else 0)
  }
}
