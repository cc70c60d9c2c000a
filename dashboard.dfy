/**
 * The dashboard view's state, owned by one object whose fields the timer
 * callbacks and button handlers overwrite. Each handler is a method; the
 * random draws, entry ids and the wallet's answer are its parameters.
 */
module DashboardView {
  import opened Wrappers
  import opened Numbers
  import opened LogBuffer
  import opened Tokens
  import Activity
  import Wallet

  class Dashboard {
    var isAutonomous: bool
    var logs: seq<LogEntry>
    var walletAddress: Option<string>
    var scanning: bool
    var tokens: seq<Token>

    /** The log stays within its cap and the table is a ticked copy of the seeded one. */
    ghost predicate Valid()
      reads this
    {
      |logs| <= MaxLogs && Descends(InitialTokens(), tokens)
    }

    /** The state before the mount effects run. */
    constructor ()
      ensures Valid()
      ensures !isAutonomous && logs == [] && walletAddress == None
      ensures scanning && tokens == InitialTokens()
    {
      isAutonomous := false;
      logs := [];
      walletAddress := None;
      scanning := true;
      tokens := InitialTokens();
      InitialDescends();
    }

    /** The mount effect: the log is replaced by the three seed entries. */
    method SeedInitialLogs()
      requires Valid()
      modifies this`logs
      ensures Valid() && logs == InitialLogs()
    {
      logs := InitialLogs();
    }

    /** `addLog(message, type = 'info')`. */
    method AddLog(id: string, message: string, kind: LogType := Info)
      requires Valid()
      modifies this`logs
      ensures Valid() && logs == LogBuffer.AddLog(old(logs), id, message, kind)
    {
      logs := LogBuffer.AddLog(logs, id, message, kind);
    }

    /** The three-second ticker: every row is re-drawn, one draw per row. */
    method TokenTick(draws: seq<Draw>)
      requires Valid() && |draws| == |tokens|
      modifies this`tokens
      ensures Valid() && tokens == TickTokens(old(tokens), draws)
    {
      TickKeepsDescent(InitialTokens(), tokens, draws);
      tokens := TickTokens(tokens, draws);
    }

    /** The four-second activity callback. */
    method ActivityTick(d: UnitReal, id: string)
      requires Valid()
      modifies this`logs
      ensures Valid() && logs == Activity.Tick(old(logs), scanning, d, id)
    {
      if scanning {
        var message := Activity.ScanMessages[Activity.PickIndex(d)];
        AddLog(id, message, Scan);
      }
    }

    /** `connectPhantom`, given how the wallet provider answers. */
    method ConnectPhantom(p: Wallet.Provider, id: string)
      requires Valid()
      modifies this`logs, this`walletAddress
      ensures Valid()
      ensures walletAddress == Wallet.Connect(old(walletAddress), p).address
      ensures logs == LogBuffer.AddLog(old(logs), id,
        Wallet.Connect(old(walletAddress), p).message, Wallet.Connect(old(walletAddress), p).kind)
    {
      match p
      case Approved(key) =>
        walletAddress := Some(key);
        AddLog(id, Wallet.ConnectedMessage(key), Success);
      case NotInstalled =>
        AddLog(id, Wallet.NotFoundMessage, Error);
      case Rejected =>
        AddLog(id, Wallet.FailedMessage, Error);
    }

    /** The "Activate Auto" / "Deactivate Auto" button. */
    method ToggleAutonomous()
      requires Valid()
      modifies this`isAutonomous
      ensures Valid() && isAutonomous == !old(isAutonomous)
    {
      isAutonomous := !isAutonomous;
    }
  }
}
