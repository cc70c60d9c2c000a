/**
 * The dashboard's activity log: entries kept in arrival order, bounded to the
 * most recent fifty by `[...prev, entry].slice(-50)`.
 */
module LogBuffer {
  import opened Numbers

  /** The five kinds of log entry; each is drawn in its own colour. */
  datatype LogType = Info | Success | Warning | Error | Scan

  /**
   * One log line. The source also stamps each entry with `new Date()`; the
   * clock is not part of this model. The `id` is chosen by the caller.
   */
  datatype LogEntry = LogEntry(id: string, message: string, kind: LogType)

  /** How many entries the log retains. */
  const MaxLogs: nat := 50

  /**
   * JavaScript's `s.slice(-n)` for n > 0: the last `n` elements of `s`, or
   * all of `s` when it is shorter.
   */
  function SliceLast<T>(s: seq<T>, n: nat): (r: seq<T>)
    requires n > 0
    ensures |r| == Min(|s|, n)
    ensures r == s[|s| - |r|..]
  {
    if |s| <= n then s else s[|s| - n..]
  }

  /**
   * The state updater of `addLog`: append `e`, then keep the last `MaxLogs`.
   * Below the cap nothing is dropped; otherwise exactly the oldest entries
   * that exceed the cap go, and the survivors keep their order.
   */
  function Append(prev: seq<LogEntry>, e: LogEntry): (r: seq<LogEntry>)
    ensures |r| == Min(|prev| + 1, MaxLogs) && |r| <= MaxLogs
    ensures r[|r| - 1] == e
    ensures |prev| < MaxLogs ==> r == prev + [e]
    ensures |prev| >= MaxLogs ==> r == prev[|prev| - MaxLogs + 1..] + [e]
    ensures |prev| == MaxLogs ==> r == prev[1..] + [e]
  {
    SliceLast(prev + [e], MaxLogs)
  }

  /**
   * `addLog(message, type = 'info')` as a function of the previous log: the
   * new entry carries exactly the given message and kind, and the kind is
   * `Info` when the caller omits it.
   */
  function AddLog(prev: seq<LogEntry>, id: string, message: string, kind: LogType := Info): (r: seq<LogEntry>)
    ensures |r| <= MaxLogs && |r| >= 1
    ensures r[|r| - 1].message == message && r[|r| - 1].kind == kind && r[|r| - 1].id == id
    ensures r[..|r| - 1] == SliceLast(prev, MaxLogs - 1)
  {
    Append(prev, LogEntry(id, message, kind))
  }

  /** The log after `addLog` has been called once for each of `es`, in order. */
  function AddAll(prev: seq<LogEntry>, es: seq<LogEntry>): seq<LogEntry>
    decreases |es|
  {
    if es == [] then prev else AddAll(AddLog(prev, es[0].id, es[0].message, es[0].kind), es[1..])
  }

  /** Trimming to the last `n` before appending more changes nothing once trimmed again. */
  lemma SliceLastAbsorbs<T>(s: seq<T>, t: seq<T>, n: nat)
    requires n > 0
    ensures SliceLast(SliceLast(s, n) + t, n) == SliceLast(s + t, n)
  {
    var k := |s| - |SliceLast(s, n)|;
    assert SliceLast(s, n) + t == (s + t)[k..];
    if |s| > n {
      assert |SliceLast(s, n) + t| == n + |t|;
      assert SliceLast(SliceLast(s, n) + t, n) == (s + t)[k + |t|..];
    }
  }

  /**
   * FIFO eviction over any run of appends: starting from a log within the
   * bound, the result is the last `MaxLogs` of the old log and the new
   * entries taken together, in their original relative order.
   */
  lemma {:induction false} AddAllKeepsNewest(prev: seq<LogEntry>, es: seq<LogEntry>)
    requires |prev| <= MaxLogs
    ensures AddAll(prev, es) == SliceLast(prev + es, MaxLogs)
    decreases |es|
  {
    if es == [] {
      assert prev + es == prev;
    } else {
      var e := es[0];
      var next := AddLog(prev, e.id, e.message, e.kind);
      assert next == SliceLast(prev + [e], MaxLogs);
      calc {
        AddAll(prev, es);
        AddAll(next, es[1..]);
        { AddAllKeepsNewest(next, es[1..]); }
        SliceLast(SliceLast(prev + [e], MaxLogs) + es[1..], MaxLogs);
        { SliceLastAbsorbs(prev + [e], es[1..], MaxLogs); }
        SliceLast(prev + [e] + es[1..], MaxLogs);
        { assert prev + [e] + es[1..] == prev + es; }
        SliceLast(prev + es, MaxLogs);
      }
    }
  }

  /**
   * After at least `MaxLogs` appends (sixty, say) the log holds exactly the
   * most recent `MaxLogs` of them, in the order they were added.
   */
  lemma NewestWin(prev: seq<LogEntry>, es: seq<LogEntry>)
    requires |prev| <= MaxLogs && |es| >= MaxLogs
    ensures AddAll(prev, es) == es[|es| - MaxLogs..]
  {
    AddAllKeepsNewest(prev, es);
    var all := prev + es;
    var k := |all| - MaxLogs;
    assert SliceLast(all, MaxLogs) == all[k..];
    assert all[|prev|..] == es;
    assert all[k..] == all[|prev|..][k - |prev|..];
  }

  /** The three entries the dashboard seeds on mount. */
  function InitialLogs(): (r: seq<LogEntry>)
    ensures |r| == 3 && |r| <= MaxLogs
    ensures r[0].id == "1" && r[1].id == "2" && r[2].id == "3"
    ensures forall i :: 0 <= i < |r| ==> r[i].kind == Info
  {
    [ LogEntry("1", "Shellagent Intelligence System v1.0.0 initialized.", Info),
      LogEntry("2", "Awaiting neural network activation...", Info),
      LogEntry("3", "Ready to scan Solana Mainnet.", Info) ]
  }
}
