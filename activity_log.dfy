/**
  ActivityLogService: an in-memory list of messages that the desktop app's
  progress view is bound to. `GetEntries` hands out the collection itself,
  so later entries show up through it.
*/
module ActivityLog {
  /** The `ObservableCollection<string>` behind the log. */
  class EntryCollection {
    var items: seq<string>

    constructor ()
      ensures items == []
    {
      items := [];
    }
  }

  class ActivityLogService {
    const entries: EntryCollection

    constructor ()
      ensures fresh(entries) && entries.items == []
    {
      entries := new EntryCollection();
    }

    /** `AddEntry(message)`: appends the message as given. */
    method AddEntry(message: string)
      modifies entries
      ensures entries.items == old(entries.items) + [message]
      ensures |entries.items| == |old(entries.items)| + 1
      ensures entries.items[..|old(entries.items)|] == old(entries.items)
      ensures entries.items[|entries.items| - 1] == message
    {
      entries.items := entries.items + [message];
    }

    /** `GetEntries()`: the live collection, not a copy. */
    function GetEntries(): (c: EntryCollection)
      ensures c == entries
    {
      entries
    }
  }

  /** What a view bound to `GetEntries()` sees after a run of `AddEntry`
      calls: every message, in order, exactly as it was added. */
  method ObserveEntries(log: ActivityLogService, messages: seq<string>) returns (view: EntryCollection)
    modifies log.entries
    ensures view == log.entries
    ensures view.items == old(log.entries.items) + messages
  {
    view := log.GetEntries();
    var i := 0;
    while i < |messages|
      invariant 0 <= i <= |messages|
      invariant view.items == old(log.entries.items) + messages[..i]
    {
      log.AddEntry(messages[i]);
      assert messages[..i + 1] == messages[..i] + [messages[i]];
      i := i + 1;
    }
    assert messages[..i] == messages;
  }
}
