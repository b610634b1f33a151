/** The console manager's log history: the last `max_logs` messages, oldest first. */
module ConsoleLog {
  import BoundedBuffer

  /** The log buffer of the console manager (its curses screen is not modelled). */
  class ConsoleManager {
    var lastLogs: seq<string>
    var maxLogs: nat

    ghost predicate Valid()
      reads this
    {
      |lastLogs| <= maxLogs
    }

    /** A new console keeps no messages and at most 10. */
    constructor ()
      ensures Valid() && lastLogs == [] && maxLogs == 10
    {
      lastLogs := [];
      maxLogs := 10;
    }

    /**
     * `add_log`: the message becomes the newest entry and the oldest is dropped once the
     * history exceeds `max_logs`.
     */
    method AddLog(message: string)
      requires Valid()
      modifies this
      ensures Valid() && maxLogs == old(maxLogs)
      ensures lastLogs == BoundedBuffer.Push(old(lastLogs), message, maxLogs)
      ensures maxLogs > 0 ==> lastLogs[|lastLogs| - 1] == message
      ensures |old(lastLogs)| < maxLogs ==> lastLogs == old(lastLogs) + [message]
      ensures |old(lastLogs)| == maxLogs > 0 ==> lastLogs == old(lastLogs)[1..] + [message]
    {
      BoundedBuffer.PushBounded(lastLogs, message, maxLogs);
      lastLogs := lastLogs + [message];
      if |lastLogs| > maxLogs {
        lastLogs := lastLogs[1..];
      }
    }
  }
}
