/**
 * The token table and its simulated ticker: every three seconds each row's
 * price, five-minute change and transaction count are perturbed by random
 * draws, and nothing else about the row changes.
 */
module Tokens {
  import opened Wrappers
  import opened Numbers

  /**
   * One row of the table. Prices and percentage changes are JavaScript
   * numbers, modelled here as exact reals; volume, liquidity and market cap
   * are display strings.
   */
  datatype Token = Token(
    id: int,
    name: string,
    ticker: string,
    price: real,
    age: string,
    txns: int,
    volume: string,
    makers: int,
    change5m: real,
    change1h: real,
    change6h: real,
    change24h: real,
    liquidity: string,
    mcap: string,
    icon: Option<string>)

  /** The three `Math.random()` results one tick consumes for one row, in call order. */
  datatype Draw = Draw(priceDraw: UnitReal, changeDraw: UnitReal, txnsDraw: UnitReal)

  /**
   * `b` is the row `a` with at most its price, five-minute change and
   * transaction count replaced: id, name, ticker and every other field agree.
   */
  predicate SameListing(a: Token, b: Token) {
    a.(price := b.price, change5m := b.change5m, txns := b.txns) == b
  }

  /** `Math.floor(Math.random() * 5)`: the number of new transactions on a tick. */
  function TxnsIncrement(d: UnitReal): (k: int)
    ensures 0 <= k <= 4
  {
    (d * 5.0).Floor
  }

  /**
   * The per-row body of the ticker's `map`: the price is scaled by a factor
   * in [0.995, 1.005), the five-minute change stays within [-0.25, 0.25) of
   * its old value, and the transaction count grows by 0 to 4.
   */
  function TickToken(t: Token, d: Draw): (r: Token)
    ensures SameListing(t, r)
    ensures t.txns <= r.txns <= t.txns + 4
    ensures t.change5m - 0.25 <= r.change5m < t.change5m + 0.25
    ensures t.price > 0.0 ==> 0.995 * t.price <= r.price < 1.005 * t.price
  {
    var change := (d.priceDraw - 0.5) * 0.01;
    PriceFactorBounds(t.price, change);
    t.(price := t.price * (1.0 + change),
       change5m := t.change5m + (d.changeDraw - 0.5) * 0.5,
       txns := t.txns + TxnsIncrement(d.txnsDraw))
  }

  lemma PriceFactorBounds(p: real, c: real)
    requires -0.005 <= c < 0.005
    ensures p > 0.0 ==> 0.995 * p <= p * (1.0 + c) < 1.005 * p
  {
    if p > 0.0 {
      assert p * (1.0 + c) - 0.995 * p == p * (c + 0.005);
      assert 1.005 * p - p * (1.0 + c) == p * (0.005 - c);
    }
  }

  /**
   * The ticker's updater `prev.map(...)`: one draw per row. The table keeps its
   * length and order, each row keeps its listing, no transaction count
   * decreases, and every positive price stays within [0.995, 1.005) of its
   * old value.
   */
  function TickTokens(prev: seq<Token>, draws: seq<Draw>): (r: seq<Token>)
    requires |draws| == |prev|
    ensures |r| == |prev|
    ensures forall i :: 0 <= i < |prev| ==>
      SameListing(prev[i], r[i]) && prev[i].txns <= r[i].txns <= prev[i].txns + 4
    ensures forall i :: 0 <= i < |prev| && prev[i].price > 0.0 ==>
      0.995 * prev[i].price <= r[i].price < 1.005 * prev[i].price
  {
    seq(|prev|, i requires 0 <= i < |prev| => TickToken(prev[i], draws[i]))
  }

  /**
   * `cur` is what ticking can make of the table `init`: the same rows in the
   * same order, no transaction count below its starting value, and every
   * price still positive.
   */
  predicate Descends(init: seq<Token>, cur: seq<Token>) {
    |cur| == |init| &&
    forall i :: 0 <= i < |init| ==>
      SameListing(init[i], cur[i]) && init[i].txns <= cur[i].txns && cur[i].price > 0.0
  }

  /** Every tick keeps the table a descendant of the seeded one. */
  lemma TickKeepsDescent(init: seq<Token>, cur: seq<Token>, draws: seq<Draw>)
    requires Descends(init, cur) && |draws| == |cur|
    ensures Descends(init, TickTokens(cur, draws))
  {
    var next := TickTokens(cur, draws);
    forall i | 0 <= i < |init|
      ensures SameListing(init[i], next[i]) && init[i].txns <= next[i].txns && next[i].price > 0.0
    {
      assert next[i] == TickToken(cur[i], draws[i]);
    }
  }

  /** The image key of row `n`'s icon on the token-image CDN. */
  function IconKey(n: int): string
    requires 1 <= n <= 17
  {
    match n
    case 1 => "91da26a8f6bb6493c28e76be1d9f1b952fc00a3ff9f20c0f20d42a85bbb166f1"
    case 2 => "2j1F8Jkhj7eq8bak"
    case 3 => "5bwrjcsUj89JVxoA"
    case 4 => "AeVl4qS8tQ58VClG"
    case 5 => "u3KkWN5ED0uAmCb2"
    case 6 => "_J_Pyhrq4yzoLrga"
    case 7 => "1gx_jMxTUd7twmcX"
    case 8 => "Q-Fjf4IKJwiiysMV"
    case 9 => "VAnXFqywHy8wAFqm"
    case 10 => "kxqL1VXzBxrotfrV"
    case 11 => "d237de55618e54fd7d66593ff2adf3ad8c092398f9049a31f1dcb1b23ad1dff8"
    case 12 => "SQayz8jGC8MXnuwA"
    case 13 => "d5d7bfff13c5cc762c020b4414e4493a8eb19d4bdcfb51957da58e9c471d43dd"
    case 14 => "eac4af8656148eb230ac19b54c134a0f02348dd4062b31019711128f1e2f4961"
    case 15 => "eac4af8656148eb230ac19b54c134a0f02348dd4062b31019711128f1e2f4961"
    case 16 => "oemlzJvNke7jlU4c"
    case 17 => "P31JqbOpYb9Qvblt"
  }

  /** Row `n`'s icon URL: every row uses the same CDN path and resize options. */
  function IconUrl(n: int): string
    requires 1 <= n <= 17
  {
    "https://cdn.dexscreener.com/cms/images/" + IconKey(n) + "?width=128&height=128&fit=crop&quality=95&format=auto"
  }

  /** Row `n` (counting from 1) of the fixed table the dashboard starts from. */
  function SeedRow(n: int): (r: Token)
    requires 1 <= n <= 17
    ensures r.id == n && r.price > 0.0 && r.txns >= 0
  {
    match n
    case 1 => Token(1, "Punch", "PUNCH", 0.02340, "19d", 42658, "9.1M", 6699, -1.33, -16.58, -2.56, -31.75, "674K", "23.4M", Some(IconUrl(1)))
    case 2 => Token(2, "Autism Coin", "AUTISM", 0.001262, "15h", 152090, "3.0M", 44588, 3.69, 19.19, 178.0, 3601.0, "93K", "1.2M", Some(IconUrl(2)))
    case 3 => Token(3, "NoLimitGains", "NoLimit", 0.0008859, "1d", 53718, "4.5M", 9005, -5.51, -0.14, 17.89, -27.76, "87K", "885K", Some(IconUrl(3)))
    case 4 => Token(4, "Lobstar", "Lobstar", 0.009431, "4d", 47829, "8.0M", 6647, 2.83, 12.45, 9.60, -21.90, "405K", "9.4M", Some(IconUrl(4)))
    case 5 => Token(5, "CLUDE", "Clude", 0.001539, "10h", 52424, "4.9M", 7201, 2.02, -10.98, -34.11, 4035.0, "104K", "1.5M", Some(IconUrl(5)))
    case 6 => Token(6, "Moss Y. Gravel", "MOSS", 0.001235, "15h", 81270, "10.2M", 8852, -5.66, -7.48, 28.91, 3141.0, "102K", "1.2M", Some(IconUrl(6)))
    case 7 => Token(7, "Dog saved by Grok", "LIA", 0.0001568, "17h", 91200, "7.1M", 10920, -8.34, -0.01, -9.62, 387.0, "38K", "156K", Some(IconUrl(7)))
    case 8 => Token(8, "Claw Mode", "CLAW", 0.0001304, "1d", 28941, "723K", 19766, -5.53, -22.54, -31.54, -34.67, "27K", "130K", Some(IconUrl(8)))
    case 9 => Token(9, "Pippkin The Horse", "Pippkin", 0.001350, "5d", 18877, "914K", 9635, -2.30, 11.36, 26.91, 267.0, "95K", "1.3M", Some(IconUrl(9)))
    case 10 => Token(10, "Grokius Maximus", "GROKIUS", 0.003257, "5d", 19693, "1.7M", 4355, -0.84, 25.40, 70.38, 146.0, "176K", "3.2M", Some(IconUrl(10)))
    case 11 => Token(11, "Pippin", "pippin", 0.7688, "1y", 64846, "28.7M", 1468, -0.66, 7.31, 2.94, 7.42, "16.9M", "768.8M", Some(IconUrl(11)))
    case 12 => Token(12, "ONE PIECE UNIVERSE", "ONE", 0.004042, "8h", 28512, "8.3M", 3542, -3.18, 0.53, -15.27, -25.31, "214K", "4.0M", Some(IconUrl(12)))
    case 13 => Token(13, "NotInEmploymentEducationTraining", "neet", 0.02051, "9mo", 7364, "2.3M", 1278, -0.25, 0.95, 1.01, -16.12, "1.0M", "20.5M", Some(IconUrl(13)))
    case 14 => Token(14, "Scrapling", "Scrapling", 0.0001220, "1d", 33173, "2.5M", 4745, 0.65, 14.88, 9.52, 586.0, "29K", "122K", Some(IconUrl(14)))
    case 15 => Token(15, "level941", "Pigeon", 0.002166, "18d", 9458, "822K", 1419, 0.94, -7.12, -6.84, 119.0, "172K", "2.1M", Some(IconUrl(15)))
    case 16 => Token(16, "Zoe", "Zoe", 0.0008405, "8h", 29333, "1.5M", 4539, -12.55, -18.25, -35.62, 161.0, "23K", "84K", Some(IconUrl(16)))
    case 17 => Token(17, "Xingxing", "Xingxing", 0.0001301, "2d", 9033, "488K", 2267, -8.28, -26.03, -12.41, -61.11, "32K", "128K", Some(IconUrl(17)))
  }

  /** The fixed table the dashboard starts from: seventeen rows, numbered 1 to 17. */
  function InitialTokens(): (r: seq<Token>)
    ensures |r| == 17
    ensures forall i :: 0 <= i < |r| ==> r[i].id == i + 1 && r[i].price > 0.0 && r[i].txns >= 0
  {
    seq(17, i requires 0 <= i < 17 => SeedRow(i + 1))
  }

  /** The seeded table is trivially a descendant of itself. */
  lemma InitialDescends()
    ensures Descends(InitialTokens(), InitialTokens())
  {
  }
}
