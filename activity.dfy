/**
 * The simulated activity feed: every four seconds, while scanning, one of six
 * canned messages is chosen at random and logged as a `Scan` entry.
 */
module Activity {
  import opened LogBuffer
  import opened Numbers

  /** The fixed pool the feed draws from. */
  const ScanMessages: seq<string> := [
    "Scanning Raydium pool: PUNCH/SOL...",
    "Analyzing whale movement in $pippin...",
    "Detecting liquidity injection in new pair: $Shellagent...",
    "Cross-referencing Twitter sentiment for $AUTISM...",
    "Calculating risk parameters for sideways market...",
    "Learning from $Lobstar transaction patterns..."
  ]

  /** `Math.floor(Math.random() * messages.length)`: always a valid index into the pool. */
  function PickIndex(d: UnitReal): (k: int)
    ensures 0 <= k < |ScanMessages|
  {
    (d * (|ScanMessages| as real)).Floor
  }

  /**
   * Each message owns a sixth of the draw range: message `k` is chosen exactly
   * when the draw lies in [k/6, (k+1)/6), so every message can appear and
   * all are equally likely under a uniform draw.
   */
  lemma PickIndexExact(d: UnitReal, k: int)
    requires 0 <= k < |ScanMessages|
    ensures PickIndex(d) == k <==> k as real / 6.0 <= d < (k + 1) as real / 6.0
  {
    var x := d * 6.0;
    assert PickIndex(d) == x.Floor;
    if k as real / 6.0 <= d < (k + 1) as real / 6.0 {
      assert k as real <= x < (k + 1) as real;
    }
    if PickIndex(d) == k {
      assert k as real <= x < k as real + 1.0;
    }
  }

  /**
   * The message a draw selects: whenever the draw lies in [k/6, (k+1)/6), the
   * pick is pool message `k`. These intervals cover [0, 1), so the draw
   * determines the message.
   */
  lemma DrawPicksMessage(d: UnitReal)
    ensures 0 <= PickIndex(d) < |ScanMessages|
    ensures PickIndex(d) as real / 6.0 <= d < (PickIndex(d) + 1) as real / 6.0
    ensures forall k :: 0 <= k < |ScanMessages| && k as real / 6.0 <= d < (k + 1) as real / 6.0 ==>
      ScanMessages[PickIndex(d)] == ScanMessages[k]
  {
    PickIndexExact(d, PickIndex(d));
    forall k | 0 <= k < |ScanMessages| && k as real / 6.0 <= d < (k + 1) as real / 6.0
      ensures ScanMessages[PickIndex(d)] == ScanMessages[k]
    {
      PickIndexExact(d, k);
    }
  }

  /**
   * The interval callback as a function of the log: when not scanning the log
   * is untouched; when scanning exactly one `Scan` entry, with a message from
   * the pool and the given id, goes through the bounded append; the message
   * is pool entry `k` for the `k` whose interval [k/6, (k+1)/6) holds the draw.
   */
  function Tick(logs: seq<LogEntry>, scanning: bool, d: UnitReal, id: string): (r: seq<LogEntry>)
    ensures !scanning ==> r == logs
    ensures scanning ==>
      |r| >= 1 && r[|r| - 1].message in ScanMessages &&
      r == AddLog(logs, id, r[|r| - 1].message, Scan)
    ensures scanning ==> forall k :: 0 <= k < |ScanMessages| && k as real / 6.0 <= d < (k + 1) as real / 6.0 ==>
      r[|r| - 1].message == ScanMessages[k]
  {
    DrawPicksMessage(d);
    if scanning then AddLog(logs, id, ScanMessages[PickIndex(d)], Scan) else logs
  }
}
