/** js/modules/logmanager.js: the activity log, newest first, capped at LOGS_LIMIT. */
module LogManager {
  import opened Store

  /** The log list after entry e is put in front and the list cut back to limit entries. */
  function Logged(logs: seq<LogEntry>, e: LogEntry, limit: nat): (r: seq<LogEntry>)
    ensures |r| <= limit
    ensures |r| == if |logs| + 1 > limit then limit else |logs| + 1
    ensures limit > 0 ==> r[0] == e
    ensures forall i :: 1 <= i < |r| ==> r[i] == logs[i - 1]
  {
    var l := [e] + logs;
    if |l| > limit then l[..limit] else l
  }

  /** Below the cap nothing is dropped: the new entry is prepended to the whole list. */
  lemma LoggedKeepsAllBelowLimit(logs: seq<LogEntry>, e: LogEntry, limit: nat)
    requires |logs| < limit
    ensures Logged(logs, e, limit) == [e] + logs
  {
  }

  /** At the cap exactly the oldest entry goes. */
  lemma {:induction false} LoggedDropsOldestAtLimit(logs: seq<LogEntry>, e: LogEntry, limit: nat)
    requires |logs| == limit > 0
    ensures Logged(logs, e, limit) == [e] + logs[..limit - 1]
  {
    var r := Logged(logs, e, limit);
    forall i | 0 <= i < |r| ensures r[i] == ([e] + logs[..limit - 1])[i] {
      if i > 0 {
        assert r[i] == logs[i - 1];
      }
    }
  }

  /** Two entries logged one after the other head the list newest first. */
  lemma {:induction false} LoggedTwice(logs: seq<LogEntry>, e1: LogEntry, e2: LogEntry, limit: nat)
    requires limit >= 2
    ensures var r := Logged(Logged(logs, e1, limit), e2, limit); r[0] == e2 && r[1] == e1
  {
    var l1 := Logged(logs, e1, limit);
    var r := Logged(l1, e2, limit);
    assert |l1| >= 1;
    assert r[1] == l1[0];
  }

  /** createLog: the entry (the clock reading now as timestamp) in front, the list capped. */
  method CreateLog(w: Warehouse, action: string, details: string, user: string, now: int)
    modifies w`logs
    ensures w.logs == Logged(old(w.logs), LogEntry(now, action, details, user), w.logsLimit)
  {
    var logs := [LogEntry(now, action, details, user)] + w.logs;
    if |logs| > w.logsLimit {
      logs := logs[..w.logsLimit];
    }
    w.logs := logs;
  }

  /** getAllLogs: the stored list (empty when nothing was ever logged). */
  method GetAllLogs(w: Warehouse) returns (logs: seq<LogEntry>)
    ensures logs == w.logs
  {
    logs := w.logs;
  }
}
