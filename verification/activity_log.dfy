/** The activity log document: an append-only sequence of entries and its
    most-recent-first view. */
module ActivityLog {

  /** One activity record; the timestamp is whatever clock reading the caller supplies. */
  datatype Entry = Entry(timestamp: string, player: string, action: string, detail: string)

  /** `log_activity`: the stored log with one entry added at the end, stamped `now`. */
  function LogActivity(logs: seq<Entry>, now: string, player: string, action: string, detail: string): (r: seq<Entry>)
    ensures |r| == |logs| + 1
    ensures r[..|logs|] == logs
    ensures r[|logs|] == Entry(now, player, action, detail)
  {
    logs + [Entry(now, player, action, detail)]
  }

  /** The logs page: the stored sequence read back to front. */
  function ShowLogs(logs: seq<Entry>): (view: seq<Entry>)
    ensures |view| == |logs|
    ensures forall i :: 0 <= i < |logs| ==> view[i] == logs[|logs| - 1 - i]
  {
    if logs == [] then [] else ShowLogs(logs[1..]) + [logs[0]]
  }

  /** Reversing twice gives back the stored log: the view loses and invents nothing. */
  lemma ShowLogsInvolution(logs: seq<Entry>)
    ensures ShowLogs(ShowLogs(logs)) == logs
  {
  }

  /** The view of a concatenation is the view of the later part followed by
      the view of the earlier part. */
  lemma ShowLogsConcat(older: seq<Entry>, newer: seq<Entry>)
    ensures ShowLogs(older + newer) == ShowLogs(newer) + ShowLogs(older)
  {
  }

  /** The entry `log_activity` just wrote is the first one the logs page shows,
      followed by the previous view unchanged. */
  lemma NewestFirst(logs: seq<Entry>, now: string, player: string, action: string, detail: string)
    ensures ShowLogs(LogActivity(logs, now, player, action, detail))
         == [Entry(now, player, action, detail)] + ShowLogs(logs)
  {
  }
}
