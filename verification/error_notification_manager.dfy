/**
 * The process-wide list of error messages waiting to be shown to the user:
 * messages are appended one call at a time and later shown, in order, and
 * cleared in one step.
 */
module ErrorNotificationManager {

  /** The three lines an empty message puts in front of itself. */
  const Header: seq<string> := [
    "Errors have occurred which may affect the integrity and informative value of the data collected.",
    "The following errors have occurred:",
    "#################################"
  ]

  /**
   * The list after adding `message`: an empty message is preceded by the three
   * header lines, and every message ends up last.
   */
  function Added(messages: seq<string>, message: string): (r: seq<string>)
    ensures |r| == |messages| + (if message == "" then 4 else 1)
    ensures r[..|messages|] == messages
    ensures r[|r| - 1] == message
    ensures message == "" ==> r[|messages|..|messages| + 3] == Header
  {
    (if message == "" then messages + Header else messages) + [message]
  }

  /** The list after adding each of `batch` in turn. */
  function AddedAll(messages: seq<string>, batch: seq<string>): seq<string>
    decreases |batch|
  {
    if batch == [] then messages else AddedAll(Added(messages, batch[0]), batch[1..])
  }

  /** Adding a batch of non-empty messages appends exactly those messages, in order. */
  lemma {:induction false} AddedAllNonEmpty(messages: seq<string>, batch: seq<string>)
    requires forall i :: 0 <= i < |batch| ==> batch[i] != ""
    ensures AddedAll(messages, batch) == messages + batch
    decreases |batch|
  {
    if batch != [] {
      AddedAllNonEmpty(Added(messages, batch[0]), batch[1..]);
      assert messages + [batch[0]] + batch[1..] == messages + batch;
    }
  }

  /** Adding a batch never changes what was already listed. */
  lemma {:induction false} AddedAllKeepsPrefix(messages: seq<string>, batch: seq<string>)
    ensures |AddedAll(messages, batch)| >= |messages|
    ensures AddedAll(messages, batch)[..|messages|] == messages
    decreases |batch|
  {
    if batch != [] {
      var next := Added(messages, batch[0]);
      AddedAllKeepsPrefix(next, batch[1..]);
      assert AddedAll(messages, batch)[..|messages|] == next[..|next|][..|messages|];
    }
  }

  /** The static message list. */
  class Manager {
    var messages: seq<string>

    /** The state at class load: an empty list. */
    constructor ()
      ensures messages == []
    {
      messages := [];
    }

    /** Appends `message`, preceded by the header lines when it is empty. */
    method AddErrorMessage(message: string)
      modifies this
      ensures messages == Added(old(messages), message)
    {
      if message == "" {
        messages := messages + [Header[0]];
        messages := messages + [Header[1]];
        messages := messages + [Header[2]];
      }
      messages := messages + [message];
    }

    /**
     * Shows every listed message as a notification, in insertion order, then
     * clears the list; on an empty list nothing is shown and nothing changes.
     * `shown` is the sequence of notifications opened.
     */
    method ShowAndClearMessages() returns (shown: seq<string>)
      modifies this
      ensures shown == old(messages)
      ensures messages == []
      ensures old(messages) == [] ==> unchanged(this)
    {
      shown := [];
      if messages != [] {
        for i := 0 to |messages|
          invariant shown == messages[..i]
        {
          shown := shown + [messages[i]];
        }
        messages := [];
      }
    }
  }
}
