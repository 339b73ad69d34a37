/**
 * The export scheduler (src/export.js): a `pending` map holding the latest request
 * per (client, session) key and a `running` set of keys whose pump is active. The
 * asynchronous `pump` is modelled as explicit atomic transitions: it starts, takes
 * one pending item per step (the awaited `runOnce` happens between steps), and
 * finishes either when nothing is pending or when a run throws.
 */
module Export {
  import opened Wrappers
  import opened Text
  import Excel

  /** `keyOf(clientId, sessionId)`: the two numbers joined by ":". */
  function KeyOf(clientId: int, sessionId: int): string {
    IntToString(clientId) + ":" + IntToString(sessionId)
  }

  /** Distinct (client, session) pairs have distinct keys: a numeral holds no ":". */
  lemma KeyOfInjective(c1: int, s1: int, c2: int, s2: int)
    requires KeyOf(c1, s1) == KeyOf(c2, s2)
    ensures c1 == c2 && s1 == s2
  {
    var a1, b1, a2, b2 := IntToString(c1), IntToString(s1), IntToString(c2), IntToString(s2);
    assert ':' !in a1 && ':' !in b1 && ':' !in a2 && ':' !in b2;
    assert Join([a1, b1], ':') == KeyOf(c1, s1);
    assert Join([a2, b2], ':') == KeyOf(c2, s2);
    SplitJoin([a1, b1], ':');
    SplitJoin([a2, b2], ':');
    IntToStringInjective(c1, c2);
    IntToStringInjective(s1, s2);
  }

  /** A scheduled export; `tag` is already defaulted. */
  datatype Item = Item(clientId: int, sessionId: int, threadId: int, tag: string)

  /** The item `scheduleExport` stores: a missing or empty tag becomes "live". */
  function MakeItem(clientId: int, sessionId: int, threadId: int, tag: Option<string>): (item: Item)
    ensures item.tag != ""
    ensures tag.Some? && tag.value != "" ==> item.tag == tag.value
  {
    Item(clientId, sessionId, threadId, if tag.None? || tag.value == "" then "live" else tag.value)
  }

  /** The document `runOnce` uploads: the spreadsheet's name, sent to a thread of a chat. */
  datatype Upload = Upload(chatId: int, threadId: int, fileName: string)

  /**
   * `runOnce` on an item, at time `now`: nothing when delivery to Telegram is off or
   * there is no admin group or thread; otherwise the session is exported under its
   * tag and the file is sent into the item's thread of the admin group.
   */
  function RunOnce(sendExcel: bool, adminGroupId: int, item: Item, now: int): (r: Option<Upload>)
    ensures r.None? <==> !sendExcel || adminGroupId == 0 || item.threadId == 0
    ensures r.Some? ==> r.value.chatId == adminGroupId && r.value.threadId == item.threadId
    ensures r.Some? ==> r.value.fileName == Excel.ExportFileName(item.clientId, item.sessionId, Some(item.tag), now)
  {
    if !sendExcel || adminGroupId == 0 || item.threadId == 0 then None
    else Some(Upload(adminGroupId, item.threadId, Excel.ExportFileName(item.clientId, item.sessionId, Some(item.tag), now)))
  }

  /** An upload for a live snapshot carries a name the retention pass groups under its own session. */
  lemma RunOnceNamesLiveSnapshot(sendExcel: bool, adminGroupId: int, item: Item, now: int)
    requires RunOnce(sendExcel, adminGroupId, item, now).Some?
    requires item.clientId >= 0 && item.sessionId >= 0 && now >= 0
    requires Excel.ExportTag(Some(item.tag)) != "start" && Excel.ExportTag(Some(item.tag)) != "end"
    ensures Excel.LiveKey(RunOnce(sendExcel, adminGroupId, item, now).value.fileName)
      == Some((IntToString(item.clientId), IntToString(item.sessionId)))
  {
    Excel.LiveNameKey(item.clientId, item.sessionId, Some(item.tag), now);
  }

  class Scheduler {
    /** The latest unserved request per key. */
    var pending: map<string, Item>
    /** The keys whose pump is active. */
    var running: set<string>
    /** Every item handed to `runOnce`, in order. */
    var runs: seq<Item>

    constructor ()
      ensures pending == map[] && running == {} && runs == []
    {
      pending, running, runs := map[], {}, [];
    }

    /** `scheduleExport`: the request replaces any pending one for its key (last write wins); a pump for the key is then queued. */
    method Schedule(clientId: int, sessionId: int, threadId: int, tag: Option<string>) returns (k: string)
      modifies this`pending
      ensures k == KeyOf(clientId, sessionId)
      ensures pending == old(pending)[k := MakeItem(clientId, sessionId, threadId, tag)]
    {
      k := KeyOf(clientId, sessionId);
      pending := pending[k := MakeItem(clientId, sessionId, threadId, tag)];
    }

    /** The start of `pump(k)`: it returns at once when a pump for `k` is already running, so at most one runs per key. */
    method PumpStart(k: string) returns (started: bool)
      modifies this`running
      ensures started <==> k !in old(running)
      ensures running == old(running) + {k}
    {
      started := k !in running;
      if started {
        running := running + {k};
      }
    }

    /**
     * One turn of the pump's loop: the pending item is removed before it is run;
     * with nothing pending, the pump leaves the loop and its key stops running.
     */
    method PumpStep(k: string) returns (item: Option<Item>)
      requires k in running
      modifies this`pending, this`running, this`runs
      ensures item.Some? <==> k in old(pending)
      ensures item.Some? ==> item.value == old(pending)[k] && pending == old(pending) - {k} && running == old(running) && runs == old(runs) + [item.value]
      ensures item.None? ==> pending == old(pending) && running == old(running) - {k} && runs == old(runs)
    {
      if k in pending {
        item := Some(pending[k]);
        pending := pending - {k};
        runs := runs + [item.value];
      } else {
        item := None;
        running := running - {k};
      }
    }

    /** A run that throws ends its pump: the key stops running (the `finally`), and what is pending stays. */
    method PumpFail(k: string)
      modifies this`running
      ensures running == old(running) - {k}
    {
      running := running - {k};
    }

    /**
     * Several requests for one session arriving before its pump takes an item, then
     * that pump running to completion with no failure: `runOnce` runs once, on the
     * last request, and afterwards nothing is pending or running for the key.
     */
    method Burst(clientId: int, sessionId: int, threadIds: seq<int>, tags: seq<Option<string>>) returns (k: string)
      requires |threadIds| == |tags| >= 1
      requires KeyOf(clientId, sessionId) !in running
      modifies this`pending, this`running, this`runs
      ensures k == KeyOf(clientId, sessionId)
      ensures runs == old(runs) + [MakeItem(clientId, sessionId, threadIds[|tags| - 1], tags[|tags| - 1])]
      ensures k !in pending && k !in running
      ensures forall other :: other != k ==> (other in pending <==> other in old(pending)) && (other in running <==> other in old(running))
    {
      k := KeyOf(clientId, sessionId);
      var i := 0;
      while i < |tags|
        invariant 0 <= i <= |tags|
        invariant running == old(running) && runs == old(runs)
        invariant i > 0 ==> k in pending && pending[k] == MakeItem(clientId, sessionId, threadIds[i - 1], tags[i - 1])
        invariant forall other :: other != k ==> (other in pending <==> other in old(pending))
      {
        var k' := Schedule(clientId, sessionId, threadIds[i], tags[i]);
        i := i + 1;
      }
      var started := PumpStart(k);
      var first := PumpStep(k);
      var second := PumpStep(k);
    }
  }
}
