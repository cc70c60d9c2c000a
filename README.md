# Shellagent dashboard: a verified model of its state transitions

Shellagent is a single-page dashboard that plays an autonomous crypto-trading
agent. Its only state-transition logic lives in the `App` component: an
activity log capped at the fifty most recent entries, a token table whose
prices, five-minute changes and transaction counts a three-second timer
perturbs, a four-second timer that logs canned "scan" messages while
scanning is on, a "Connect Phantom" button that asks the browser wallet for a
public key, and an "autonomous mode" toggle.

The model has these modules:

- `LogBuffer` holds log entries and the `[...prev, entry].slice(-50)` updater. It proves the bound, oldest-first eviction and order preservation, also over any run of appends.
- `Tokens` holds the seventeen-row seed table and the ticker's `map` updater. It proves that only `price`, `change5m` and `txns` change, that `txns` grows by 0 to 4, that the price stays within [0.995, 1.005) of its old value, and that the table keeps its length and order.
- `Activity` holds the six-message pool and the scanning-gated tick.
- `Wallet` holds the three-way outcome of `connectPhantom` and the short-key success message.
- `DashboardView.Dashboard` is a class holding the component's five state fields. Its methods are the timer callbacks and button handlers. Each method is specified by the pure functions above and keeps the invariant `Valid()`: the log stays within its cap, and the table is a ticked copy of the seed table with every price positive.

Every `Math.random()` result is a `UnitReal` parameter, a real in [0, 1). An
entry's `Math.random().toString()` id is a `string` parameter. Ids are not
claimed to be unique. The wallet's answer is a `Wallet.Provider` value.

After a successful connect, the stored and displayed `walletAddress` is the
full key (src/App.tsx:183, 325). Only the log line shows the first eight
characters followed by `...` (src/App.tsx:184).

## Model

| member | source | states |
|---|---|---|
| LogBuffer.SliceLast | src/App.tsx:175 | for n > 0, `slice(-n)` returns the last n elements of `s` (all of `s` when it is shorter), as a suffix of `s` |
| LogBuffer.Append | src/App.tsx:175 | after appending, the log holds one more entry than before, up to 50, and the new entry is last; below the cap nothing is dropped; at or over the cap only the oldest entries are dropped, and the rest keep their order |
| LogBuffer.AddLog | src/App.tsx:174-176 | `addLog` puts an entry last with exactly the given id, message and kind; the kind defaults to `Info`; the entries before it are the last 49 of the old log; the log never exceeds 50 |
| LogBuffer.SliceLastAbsorbs | src/App.tsx:175 | trimming to the last `n` and then appending more and trimming again gives the same result as trimming once at the end |
| LogBuffer.AddAllKeepsNewest | src/App.tsx:174-176 | for any run of `addLog` calls from a log within the cap, the result is the last 50 of the old log and the new entries taken together, in their original relative order |
| LogBuffer.NewestWin | src/App.tsx:174-176 | after 50 or more appends (sixty, say), the log holds exactly the 50 most recent new entries, in the order they were added |
| LogBuffer.InitialLogs | src/App.tsx:118-125 | the seed log has exactly three `Info` entries, with ids "1", "2" and "3" in that order |
| Tokens.TxnsIncrement | src/App.tsx:148 | `Math.floor(Math.random() * 5)` is an integer in 0..4 |
| Tokens.PriceFactorBounds | src/App.tsx:142-143 | when the change lies in [-0.005, 0.005), a positive price scaled by `1 + change` stays within [0.995, 1.005) of its old value |
| Tokens.TickToken | src/App.tsx:141-149 | one row's tick changes only `price`, `change5m` and `txns`; `txns` rises by 0 to 4; `change5m` stays within [-0.25, 0.25) of its old value; a positive price stays within [0.995, 1.005) of its old value |
| Tokens.TickTokens | src/App.tsx:139-153 | a ticker step keeps the table's length and order; each row keeps every other field, and its `txns` does not decrease and rises by at most 4; every positive price stays within [0.995, 1.005) of its old value |
| Tokens.TickKeepsDescent | src/App.tsx:139-153 | ticking preserves this invariant: same rows in the same order as the seed, every `txns` at least its seed value, every price positive |
| Tokens.SeedRow | src/App.tsx:88-106 | seed row `n` has id `n`, a positive price and a non-negative transaction count |
| Tokens.InitialTokens | src/App.tsx:88-106 | the seed table has 17 rows with ids 1 to 17 in order, positive prices and non-negative `txns` |
| Tokens.InitialDescends | src/App.tsx:113 | the seed table satisfies the ticker invariant |
| Activity.PickIndex | src/App.tsx:167 | `Math.floor(Math.random() * messages.length)` is a valid index into the six-message pool |
| Activity.PickIndexExact | src/App.tsx:167 | message `k` is picked exactly when the draw lies in [k/6, (k+1)/6), so every message can appear and each has an equal share |
| Activity.DrawPicksMessage | src/App.tsx:167 | a draw in [k/6, (k+1)/6) selects pool message `k`, and every draw lies in the interval of the index it selects, so these intervals cover every draw |
| Activity.Tick | src/App.tsx:156-172 | when not scanning, the log is unchanged; when scanning, exactly one `Scan` entry with the given id and a pool message goes through the bounded append, and that message is pool entry `k` for the `k` whose interval [k/6, (k+1)/6) holds the draw |
| Wallet.ShortKey | src/App.tsx:184 | `key.slice(0, 8)` is a prefix of the key, eight characters long, or the whole key when it is shorter |
| Wallet.ConnectedMessage | src/App.tsx:184 | the success line is the fixed lead text followed by the short key and then `...` |
| Wallet.ShownKeyRoundTrip | src/App.tsx:184 | the key shown in a success line reads back as exactly the first eight characters of the key |
| Wallet.Connect | src/App.tsx:178-193 | there are three outcomes. On approval the address becomes the full key and the entry is `Success`, showing the short key. If the wallet is missing, the address is unchanged and the entry is `Error` with the install message. If the connection fails, the address is unchanged and the entry is `Error` with "Connection to Phantom failed." |
| DashboardView.Dashboard.constructor | src/App.tsx:109-113 | the initial state is: not autonomous, empty log, no wallet, scanning on, the seed table |
| DashboardView.Dashboard.SeedInitialLogs | src/App.tsx:118-125 | the mount effect replaces the log with the three seed entries and changes nothing else |
| DashboardView.Dashboard.AddLog | src/App.tsx:174-176 | the log becomes `LogBuffer.AddLog` of the old log; no other field changes; the invariant holds |
| DashboardView.Dashboard.TokenTick | src/App.tsx:139-153 | the table becomes the ticked table; no other field changes; the invariant holds |
| DashboardView.Dashboard.ActivityTick | src/App.tsx:156-172 | the log becomes `Activity.Tick` of the old log under the current scanning flag; no other field changes |
| DashboardView.Dashboard.ConnectPhantom | src/App.tsx:178-193 | the address and exactly one appended entry follow `Wallet.Connect`; tokens, scanning and the autonomous flag are unchanged |
| DashboardView.Dashboard.ToggleAutonomous | src/App.tsx:309 | only `isAutonomous` flips |

## Left out

- Wallet.ShortKey: a Dafny `string` is a sequence of Unicode scalar values, while JavaScript's `slice(0, 8)` counts UTF-16 code units. For a key with characters outside the Basic Multilingual Plane the two short keys differ, and the source's could split a surrogate pair. Phantom keys are base58 ASCII, where the two agree.
- Timestamps: the `new Date()` stamp of each log entry and its `date-fns` display are clock calls, so entries carry only id, message and kind.
- Floating point: prices and percentage changes are exact reals. IEEE rounding, underflow of a price after very many downward ticks, and the `toFixed` display are not modelled. In exact arithmetic a positive price stays positive.
- Randomness: `Math.random()` results are parameters. A `UnitReal` stands for the value range only; the distribution is not modelled beyond `Activity.PickIndexExact`.
- Scheduling: `setInterval`/`clearInterval`, the React effect lifecycles and re-renders are not modelled. Each tick is one method call, and the model does not say how often calls happen.
- `scanning` is never set after it is initialised (`setScanning` is unused), so it is always true at run time. The model keeps the field and the false branch.
- DashboardView.Dashboard.ConnectPhantom: treated as atomic. In the source it awaits the wallet, and timer callbacks may log entries before its own entry. Those callbacks never touch `walletAddress`, and the log updater is functional, so only the relative order of those entries is lost.
- DashboardView.Dashboard.ConnectPhantom: the "Connect Phantom" button is only rendered while no address is set (src/App.tsx:322-328). The model does not require this, because the handler itself does not depend on it.
- `window.open` of the install page and `console.error` in `connectPhantom` are side effects outside the state, so they are not modelled.
- The DOM auto-scroll of the log, the welcome modal (`showWelcome`), all JSX, CSS and animation, and the presentational components are not modelled.
- src/services/gemini.ts is not part of this model: the UI never calls it, and its only logic forwards a request to a hosted model.
