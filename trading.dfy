/**
 * The binary-option desk: placing an order (main.py:1403-1425) and the
 * one-shot settlement of an expired order when its status is read
 * (main.py:1427-1495). The account of the single user is a balance, the
 * trades table a sequence indexed by id - 1, and the transactions table a
 * sequence in creation order. The clock is the parameter `now`, counted in
 * microseconds, and the exchange is the `responses` parameter of the price
 * adapter.
 */
module Trading {
  import opened Wrappers
  import Symbols
  import PriceSource

  // ---------------------------------------------------------------- rounding

  const Scale: real := 1000000.0
  const HalfMicro: real := 0.0000005

  /** The value has at most six decimal places. */
  predicate Micro(x: real)
  {
    (x * Scale).Floor as real == x * Scale
  }

  /** `round(x, 6)`: to the nearest multiple of 10^-6, ties to the even multiple. */
  function Round6(x: real): (r: real)
    ensures Micro(r)
    ensures -HalfMicro <= r - x <= HalfMicro
    ensures x >= 0.0 ==> r >= 0.0
  {
    var y := x * Scale;
    var n := y.Floor;
    var f := y - n as real;
    var k := if f < 0.5 then n else if f > 0.5 then n + 1 else if n % 2 == 0 then n else n + 1;
    assert (k as real / Scale) * Scale == k as real;
    k as real / Scale
  }

  /** Rounding leaves a value with six decimals alone, so it is idempotent. */
  lemma Round6Exact(x: real)
    requires Micro(x)
    ensures Round6(x) == x
    ensures Round6(Round6(x)) == Round6(x)
  {
    var n := (x * Scale).Floor;
    assert n as real / Scale == x;
  }

  // ------------------------------------------------------------ the records

  datatype Status = Active | Completed

  datatype Outcome = Win | Loss | Push

  /** A row of the trades table. */
  datatype Trade = Trade(
    pair: string,
    side: string,
    stake: real,
    start: real,
    openedAt: int,
    duration: int,
    status: Status,
    result: Option<Outcome>,
    payout: real,
    closedAt: Option<int>)

  datatype TxStatus = Pending | Done

  /** What settlement adds to the details of a transaction. */
  datatype Closing = Closing(result: Outcome, payout: real, closePrice: real)

  /** A "trade" row of the transactions table, with the details it carries. */
  datatype Tx = Tx(
    amount: real,
    fee: real,
    stake: real,
    pair: string,
    side: string,
    status: TxStatus,
    closing: Option<Closing>)

  /** The balance of the account and the two tables. */
  datatype Book = Book(balance: real, trades: seq<Trade>, ledger: seq<Tx>)

  datatype Receipt = Receipt(orderId: nat, fee: real, total: real)

  datatype OrderError = StakeTooSmall | InsufficientFunds(required: real)

  /** The body of the status answer. */
  datatype View = View(orderId: nat, status: Status, result: Option<Outcome>, stake: real, payout: real, openedAt: int)

  datatype StatusError = NotFound

  // --------------------------------------------------------- placing orders

  const MinStake: real := 5.0
  const FeePercent: real := 2.0
  const PayoutRate: real := 0.7
  const Second: int := 1000000

  /** The fee charged on top of the stake: 2% of it, rounded to six decimals. */
  function OrderFee(stake: real): (fee: real)
    ensures Micro(fee)
    ensures -HalfMicro <= fee - stake * 0.02 <= HalfMicro
    ensures stake >= 0.0 ==> fee >= 0.0
  {
    Round6(stake * (FeePercent / 100.0))
  }

  /**
   * The two checks before an order is accepted, in the order they are made;
   * on success, what is to be debited.
   */
  function CheckOrder(stake: real, balance: real): (r: Result<real, OrderError>)
    ensures r == Failure(StakeTooSmall) <==> stake < MinStake
    ensures r.Failure? && r.error.InsufficientFunds? <==> MinStake <= stake && balance < stake + OrderFee(stake)
    ensures r.Failure? && r.error.InsufficientFunds? ==> r.error.required == stake + OrderFee(stake)
    ensures r.Success? ==> r.value == stake + OrderFee(stake) && MinStake < r.value <= balance
  {
    if stake < MinStake then Failure(StakeTooSmall)
    else
      var total := stake + OrderFee(stake);
      if balance < total then Failure(InsufficientFunds(total)) else Success(total)
  }

  /** `price or 0.0`: an unavailable price is recorded as 0. */
  function StartPrice(fetched: Option<real>): real
  {
    if fetched.Some? then fetched.value else 0.0
  }

  /** The symbol handed to the price adapter when an order is placed. */
  function OrderSymbol(pair: string): (r: string)
    ensures '/' !in r
  {
    Symbols.ReplaceCharRemoves(pair, '/', "");
    Symbols.Replace(pair, "/", "")
  }

  /** The trade a successful order creates. */
  function Opened(pair: string, side: string, stake: real, duration: int, now: int, fetched: Option<real>): Trade
  {
    Trade(pair, side, stake, StartPrice(fetched), now, duration, Active, None, 0.0, None)
  }

  /**
   * Placing an order, given what the price adapter returned: the new book
   * and the answer.
   */
  function Ordered(b: Book, pair: string, side: string, stake: real, duration: int, now: int, fetched: Option<real>)
    : (r: (Book, Result<Receipt, OrderError>))
    ensures r.1.Failure? <==> CheckOrder(stake, b.balance).Failure?
    ensures r.1.Failure? ==> r.0 == b && r.1.error == CheckOrder(stake, b.balance).error
    ensures r.1.Success? ==>
      && r.1.value.fee == OrderFee(stake)
      && r.1.value.total == stake + OrderFee(stake)
      && r.0.balance == b.balance - r.1.value.total
      && r.0.balance >= 0.0
      && r.1.value.orderId == |r.0.trades|
      && r.0.trades == b.trades + [Opened(pair, side, stake, duration, now, fetched)]
      && r.0.ledger == b.ledger + [Tx(r.1.value.total, r.1.value.fee, stake, pair, side, Pending, None)]
  {
    match CheckOrder(stake, b.balance)
    case Failure(e) => (b, Failure(e))
    case Success(total) =>
      var fee := OrderFee(stake);
      var trades := b.trades + [Opened(pair, side, stake, duration, now, fetched)];
      var ledger := b.ledger + [Tx(total, fee, stake, pair, side, Pending, None)];
      (Book(b.balance - total, trades, ledger), Success(Receipt(|trades|, fee, total)))
  }

  // --------------------------------------------------------------- settling

  /** The order has not been settled and its duration has run out. */
  predicate Due(t: Trade, now: int)
  {
    t.status == Active && now >= t.openedAt + t.duration * Second
  }

  /** The symbol handed to the price adapter at settlement: slashes dropped, "USDT" appended unless the pair already ends in it. */
  function SettlementSymbol(pair: string): (r: string)
    ensures '/' !in r
  {
    Symbols.ReplaceCharRemoves(pair, '/', "");
    Symbols.Replace(pair, "/", "") + (if !Symbols.EndsWith(pair, Symbols.Quote) then Symbols.Quote else "")
  }

  /** `price or start`: an unavailable or zero price counts as no move. */
  function SettlementPrice(fetched: Option<real>, start: real): (cur: real)
    ensures fetched.Some? && fetched.value != 0.0 ==> cur == fetched.value
    ensures fetched.None? || fetched.value == 0.0 ==> cur == start
  {
    if fetched.Some? && fetched.value != 0.0 then fetched.value else start
  }

  /** The sign of the price move. */
  function Direction(start: real, cur: real): (d: int)
    ensures d == 1 <==> cur > start
    ensures d == -1 <==> cur < start
    ensures d == 0 <==> cur == start
  {
    if cur - start > 0.0 then 1 else if cur - start < 0.0 then -1 else 0
  }

  /** Win or not from the side and the direction, then push or loss. */
  function Verdict(side: string, direction: int): Outcome
  {
    var win := if side == "buy" then direction > 0 else direction < 0;
    if win then Win else if direction == 0 then Push else Loss
  }

  /**
   * The outcome of a trade: "buy" bets on a rise and every other side on a
   * fall; a price that did not move is a push whatever the side.
   */
  function Decide(side: string, start: real, cur: real): (o: Outcome)
    ensures o == Win <==> (side == "buy" && cur > start) || (side != "buy" && cur < start)
    ensures o == Push <==> cur == start
    ensures o == Loss <==> (side == "buy" && cur < start) || (side != "buy" && cur > start)
  {
    Verdict(side, Direction(start, cur))
  }

  /** 70% of the stake, rounded to six decimals, on a win; nothing otherwise. */
  function Payout(stake: real, o: Outcome): (p: real)
    ensures o != Win ==> p == 0.0
    ensures o == Win ==> Micro(p) && -HalfMicro <= p - stake * PayoutRate <= HalfMicro
    ensures stake >= 0.0 ==> p >= 0.0
  {
    if o == Win then
      Round6(stake * PayoutRate)
    else 0.0
  }

  /** What settlement credits: stake, fee and payout on a win, stake and fee on a push, nothing on a loss. */
  function Credit(stake: real, fee: real, o: Outcome, payout: real): (r: real)
    ensures stake + fee >= 0.0 && payout >= 0.0 ==> r >= 0.0
    ensures o != Loss && payout >= 0.0 ==> r >= stake + fee
  {
    match o
    case Win => stake + fee + payout
    case Push => stake + fee
    case Loss => 0.0
  }

  /** The trade after settlement at `now` with the settlement price `cur`. */
  function Settle(t: Trade, now: int, cur: real): (s: Trade)
    ensures forall n :: !Due(s, n)
    ensures s.result.Some? && s.closedAt == Some(now)
  {
    var o := Decide(t.side, t.start, cur);
    Trade(t.pair, t.side, t.stake, t.start, t.openedAt, t.duration, Completed, Some(o), Payout(t.stake, o), Some(now))
  }

  /** The most recent pending transaction, the one both settlement queries pick. */
  function LatestPending(ledger: seq<Tx>): (k: Option<nat>)
    ensures k.Some? ==> k.value < |ledger| && ledger[k.value].status == Pending
    ensures k.Some? ==> forall j :: k.value < j < |ledger| ==> ledger[j].status != Pending
    ensures k.None? ==> forall j :: 0 <= j < |ledger| ==> ledger[j].status != Pending
  {
    if ledger == [] then None
    else if ledger[|ledger| - 1].status == Pending then Some(|ledger| - 1)
    else LatestPending(ledger[..|ledger| - 1])
  }

  /** The fee refunded at settlement: the one recorded on the latest pending transaction, or 0. */
  function PendingFee(ledger: seq<Tx>): (r: real)
    ensures (forall j :: 0 <= j < |ledger| ==> ledger[j].fee >= 0.0) ==> r >= 0.0
    ensures (forall j :: 0 <= j < |ledger| ==> ledger[j].status != Pending) ==> r == 0.0
  {
    match LatestPending(ledger)
    case Some(k) => ledger[k].fee
    case None => 0.0
  }

  /** The latest pending transaction is closed with the settlement details; the others stay as they are. */
  function MarkDone(ledger: seq<Tx>, c: Closing): (r: seq<Tx>)
    ensures |r| == |ledger|
    ensures LatestPending(ledger).None? ==> r == ledger
    ensures LatestPending(ledger).Some? ==>
      var k := LatestPending(ledger).value;
      && r[k] == Tx(ledger[k].amount, ledger[k].fee, ledger[k].stake, ledger[k].pair, ledger[k].side, Done, Some(c))
      && forall j :: 0 <= j < |ledger| && j != k ==> r[j] == ledger[j]
  {
    match LatestPending(ledger)
    case None => ledger
    case Some(k) =>
      var x := ledger[k];
      ledger[k := Tx(x.amount, x.fee, x.stake, x.pair, x.side, Done, Some(c))]
  }

  function ViewOf(id: nat, t: Trade): View
  {
    View(id, t.status, t.result, t.stake, t.payout, t.openedAt)
  }

  /**
   * Reading the status of order `id` at `now`, given what the price adapter
   * returned: the new book and the answer.
   */
  function Checked(b: Book, id: int, now: int, fetched: Option<real>): (r: (Book, Result<View, StatusError>))
    ensures r.1.Failure? <==> !(1 <= id <= |b.trades|)
    ensures r.1.Failure? ==> r.0 == b
    ensures r.1.Success? ==>
      && |r.0.trades| == |b.trades|
      && r.1.value == ViewOf(id, r.0.trades[id - 1])
      && forall j :: 0 <= j < |b.trades| && j != id - 1 ==> r.0.trades[j] == b.trades[j]
    ensures r.1.Success? && !Due(b.trades[id - 1], now) ==> r.0 == b
    ensures r.1.Success? && Due(b.trades[id - 1], now) ==>
      var t := b.trades[id - 1];
      var cur := SettlementPrice(fetched, t.start);
      var o := Decide(t.side, t.start, cur);
      && r.0.trades[id - 1] == Settle(t, now, cur)
      && r.0.balance == b.balance + Credit(t.stake, PendingFee(b.ledger), o, Payout(t.stake, o))
      && r.0.ledger == MarkDone(b.ledger, Closing(o, Payout(t.stake, o), cur))
  {
    if !(1 <= id <= |b.trades|) then (b, Failure(NotFound))
    else
      var t := b.trades[id - 1];
      if !Due(t, now) then (b, Success(ViewOf(id, t)))
      else
        var cur := SettlementPrice(fetched, t.start);
        var s := Settle(t, now, cur);
        var credit := Credit(t.stake, PendingFee(b.ledger), s.result.value, s.payout);
        var ledger := MarkDone(b.ledger, Closing(s.result.value, s.payout, cur));
        (Book(b.balance + credit, b.trades[id - 1 := s], ledger), Success(ViewOf(id, s)))
  }

  // ---------------------------------------------------------------- the desk

  /** The account and its two tables, updated in place by the two endpoints. */
  class Desk {
    var balance: real
    var trades: seq<Trade>
    var ledger: seq<Tx>

    function Snapshot(): Book
      reads this
    {
      Book(balance, trades, ledger)
    }

    constructor(balance: real)
      ensures Snapshot() == Book(balance, [], [])
    {
      this.balance := balance;
      trades := [];
      ledger := [];
    }

    /** `POST /api/trade/order` */
    method PlaceOrder(pair: string, side: string, stake: real, duration: int, now: int,
                      responses: nat -> PriceSource.Response)
      returns (r: Result<Receipt, OrderError>, priced: Option<string>)
      modifies this
      ensures (Snapshot(), r) ==
        Ordered(old(Snapshot()), pair, side, stake, duration, now,
                PriceSource.Attempts(responses, PriceSource.DefaultRetries, 0).price)
      ensures priced == if r.Success? then Some(Symbols.Instrument(OrderSymbol(pair))) else None
    {
      if stake < MinStake {
        return Failure(StakeTooSmall), None;
      }
      var fee := OrderFee(stake);
      var total := stake + fee;
      if balance < total {
        return Failure(InsufficientFunds(total)), None;
      }
      var instId, price, _, _ := PriceSource.FetchPrice(OrderSymbol(pair), responses, PriceSource.DefaultRetries);
      balance := balance - total;
      trades := trades + [Trade(pair, side, stake, StartPrice(price), now, duration, Active, None, 0.0, None)];
      ledger := ledger + [Tx(total, fee, stake, pair, side, Pending, None)];
      r, priced := Success(Receipt(|trades|, fee, total)), Some(instId);
    }

    /** The settlement of a due order once the price adapter has answered (main.py:1438-1470). */
    method SettleOrder(id: int, now: int, fetched: Option<real>)
      requires 1 <= id <= |trades| && Due(trades[id - 1], now)
      modifies this
      ensures Snapshot() == Checked(old(Snapshot()), id, now, fetched).0
    {
      var t := trades[id - 1];
      var cur := SettlementPrice(fetched, t.start);
      var result := Decide(t.side, t.start, cur);
      var payout := Payout(t.stake, result);
      trades := trades[id - 1 := Trade(t.pair, t.side, t.stake, t.start, t.openedAt, t.duration,
                                       Completed, Some(result), payout, Some(now))];
      balance := balance + Credit(t.stake, PendingFee(ledger), result, payout);
      var k := LatestPending(ledger);
      if k.Some? {
        var x := ledger[k.value];
        ledger := ledger[k.value := Tx(x.amount, x.fee, x.stake, x.pair, x.side, Done, Some(Closing(result, payout, cur)))];
      }
    }

    /** `GET /api/trade/order/{id}` */
    method TradeStatus(id: int, now: int, responses: nat -> PriceSource.Response)
      returns (r: Result<View, StatusError>, priced: Option<string>)
      modifies this
      ensures (Snapshot(), r) ==
        Checked(old(Snapshot()), id, now,
                PriceSource.Attempts(responses, PriceSource.DefaultRetries, 0).price)
      ensures priced == if 1 <= id <= |old(trades)| && Due(old(trades)[id - 1], now)
                        then Some(Symbols.Instrument(SettlementSymbol(old(trades)[id - 1].pair))) else None
    {
      priced := None;
      if !(1 <= id <= |trades|) {
        return Failure(NotFound), None;
      }
      var t := trades[id - 1];
      if t.status == Active && now >= t.openedAt + t.duration * Second {
        var instId, fetched, _, _ := PriceSource.FetchPrice(SettlementSymbol(t.pair), responses, PriceSource.DefaultRetries);
        priced := Some(instId);
        SettleOrder(id, now, fetched);
      }
      r := Success(ViewOf(id, trades[id - 1]));
    }
  }

  // ------------------------------------------------------------- properties

  /** Dropping the slash of "BTC/USDT". */
  lemma DropSlash()
    ensures Symbols.Replace("BTC/USDT", "/", "") == "BTCUSDT"
  {
    var q := Symbols.Quote;
    var t := "/" + q;
    assert q + "" == q;
    Symbols.ReplaceSkipsPrefix(q, "", "/", "");
    assert t[..1] == "/" && t[1..] == q;
    assert Symbols.Replace(t, "/", "") == "" + Symbols.Replace(q, "/", "");
    assert "BTC" + t == "BTC/USDT";
    Symbols.ReplaceSkipsPrefix("BTC", t, "/", "");
  }

  /** Example: an order on "BTC/USDT" prices the instrument "BTC-USDT". */
  lemma OrderInstrument()
    ensures Symbols.Instrument(OrderSymbol("BTC/USDT")) == "BTC-USDT"
  {
    DropSlash();
    Symbols.InstrumentInsertsDash();
  }

  /** Example: settling an order on "BTC/USDT" prices the instrument "BTC-USDT" too; no second quote is appended. */
  lemma SettlementInstrument()
    ensures Symbols.Instrument(SettlementSymbol("BTC/USDT")) == "BTC-USDT"
  {
    var p := "BTC/USDT";
    assert Symbols.EndsWith(p, Symbols.Quote) by {
      assert p[|p| - |Symbols.Quote|..] == Symbols.Quote;
    }
    var r := Symbols.Replace(p, "/", "");
    assert SettlementSymbol(p) == r + "";
    assert r + "" == r;
    DropSlash();
    Symbols.InstrumentInsertsDash();
  }

  /** Every settlement symbol is quoted in USDT. */
  lemma SettlementSymbolQuoted(pair: string)
    ensures Symbols.EndsWith(SettlementSymbol(pair), Symbols.Quote)
  {
    var s := SettlementSymbol(pair);
    if Symbols.EndsWith(pair, Symbols.Quote) {
      var n := |pair| - |Symbols.Quote|;
      assert pair == pair[..n] + Symbols.Quote;
      Symbols.ReplaceCharConcat(pair[..n], Symbols.Quote, '/', "");
      Symbols.ReplaceSkipsPrefix(Symbols.Quote, [], "/", "");
      assert Symbols.Quote + [] == Symbols.Quote;
      assert s == Symbols.Replace(pair[..n], "/", "") + Symbols.Quote + "";
    }
    assert s[|s| - |Symbols.Quote|..] == Symbols.Quote;
  }

  /**
   * Settlement happens once: after a read that settled the order, or of an
   * order already settled, every later read returns the same answer and
   * changes nothing, whatever the clock and the exchange say then.
   */
  lemma SettlesOnce(b: Book, id: int, now: int, fetched: Option<real>, later: int, refetched: Option<real>)
    requires 1 <= id <= |b.trades|
    requires Due(b.trades[id - 1], now) || b.trades[id - 1].status == Completed
    ensures Checked(b, id, now, fetched).0.trades[id - 1].status == Completed
    ensures Checked(Checked(b, id, now, fetched).0, id, later, refetched) == Checked(b, id, now, fetched)
  {
  }

  /** The net effect of each outcome on the balance. */
  function Net(stake: real, o: Outcome): real
  {
    match o
    case Win => Payout(stake, o)
    case Push => 0.0
    case Loss => -(stake + OrderFee(stake))
  }

  /**
   * An order followed by the read that settles it: the balance ends up
   * higher by the payout on a win, where it started on a push, and lower
   * by stake and fee on a loss; the order's transaction is closed with the
   * outcome.
   */
  lemma {:induction false} OrderThenSettle(b: Book, pair: string, side: string, stake: real, duration: int, now: int,
                                           fetched: Option<real>, later: int, refetched: Option<real>)
    requires Ordered(b, pair, side, stake, duration, now, fetched).1.Success?
    requires later >= now + duration * Second
    ensures
      var placed := Ordered(b, pair, side, stake, duration, now, fetched);
      var id := placed.1.value.orderId;
      var settled := Checked(placed.0, id, later, refetched);
      var start := StartPrice(fetched);
      var cur := SettlementPrice(refetched, start);
      var o := Decide(side, start, cur);
      && settled.1 == Success(View(id, Completed, Some(o), stake, Payout(stake, o), now))
      && settled.0.balance == b.balance + Net(stake, o)
      && settled.0.trades == b.trades + [Settle(Opened(pair, side, stake, duration, now, fetched), later, cur)]
      && settled.0.ledger ==
           b.ledger + [Tx(stake + OrderFee(stake), OrderFee(stake), stake, pair, side, Done,
                          Some(Closing(o, Payout(stake, o), cur)))]
  {
    var placed := Ordered(b, pair, side, stake, duration, now, fetched);
    var b1 := placed.0;
    var id := placed.1.value.orderId;
    var tx := Tx(stake + OrderFee(stake), OrderFee(stake), stake, pair, side, Pending, None);
    assert b1.ledger == b.ledger + [tx];
    assert b1.ledger[|b.ledger|] == tx;
    assert LatestPending(b1.ledger) == Some(|b.ledger|);
    assert PendingFee(b1.ledger) == OrderFee(stake);
    assert b1.trades[id - 1] == Opened(pair, side, stake, duration, now, fetched);
    var start := StartPrice(fetched);
    var cur := SettlementPrice(refetched, start);
    var o := Decide(side, start, cur);
    var settled := Checked(b1, id, later, refetched);
    var closed := MarkDone(b1.ledger, Closing(o, Payout(stake, o), cur));
    assert closed == b.ledger + [Tx(tx.amount, tx.fee, stake, pair, side, Done, Some(Closing(o, Payout(stake, o), cur)))];
    assert settled.0.trades == b1.trades[id - 1 := Settle(b1.trades[id - 1], later, cur)];
  }

  /**
   * The book a sequence of orders and reads can reach from a non-negative
   * balance: the balance stays non-negative, every trade carries at least
   * the minimum stake, and every recorded fee is non-negative.
   */
  predicate Sound(b: Book)
  {
    && b.balance >= 0.0
    && (forall i :: 0 <= i < |b.trades| ==> b.trades[i].stake >= MinStake)
    && (forall i :: 0 <= i < |b.ledger| ==> b.ledger[i].fee >= 0.0)
  }

  /** Placing an order keeps the book sound. */
  lemma OrderedSound(b: Book, pair: string, side: string, stake: real, duration: int, now: int, fetched: Option<real>)
    requires Sound(b)
    ensures Sound(Ordered(b, pair, side, stake, duration, now, fetched).0)
  {
    var r := Ordered(b, pair, side, stake, duration, now, fetched);
    if r.1.Success? {
      assert r.0.trades[|b.trades|].stake == stake;
      assert r.0.ledger[|b.ledger|].fee == OrderFee(stake);
    }
  }

  /** Reading a status keeps the book sound and never lowers the balance. */
  lemma CheckedSound(b: Book, id: int, now: int, fetched: Option<real>)
    requires Sound(b)
    ensures Sound(Checked(b, id, now, fetched).0)
    ensures Checked(b, id, now, fetched).0.balance >= b.balance
  {
    var r := Checked(b, id, now, fetched);
    if 1 <= id <= |b.trades| && Due(b.trades[id - 1], now) {
      var fee := PendingFee(b.ledger);
      assert fee >= 0.0;
      MarkDoneFees(b.ledger, Closing(r.0.trades[id - 1].result.value, r.0.trades[id - 1].payout,
                                     SettlementPrice(fetched, b.trades[id - 1].start)));
    }
  }

  /** Closing a transaction keeps every fee as it was. */
  lemma MarkDoneFees(ledger: seq<Tx>, c: Closing)
    ensures forall j :: 0 <= j < |ledger| ==> MarkDone(ledger, c)[j].fee == ledger[j].fee
  {
  }

  /**
   * The fee refunded at settlement is the one of the most recent pending
   * order, not necessarily the settled one's: with orders of 10 and 100
   * open, a push on the first refunds the second's fee of 2 and closes the
   * second's transaction, leaving the first's pending.
   */
  lemma FeeOfLatestOrder(fetched: Option<real>)
    requires fetched == Some(100.0)
    ensures
      var b0 := Book(200.0, [], []);
      var first := Ordered(b0, "BTC/USDT", "buy", 10.0, 60, 0, fetched).0;
      var second := Ordered(first, "BTC/USDT", "buy", 100.0, 60, 0, fetched).0;
      var settled := Checked(second, 1, 60 * Second, fetched).0;
      && settled.balance == 99.8
      && settled.ledger[0].status == Pending
      && settled.ledger[1].status == Done
  {
    Round6Exact(0.2);
    Round6Exact(2.0);
    var b0 := Book(200.0, [], []);
    var first := Ordered(b0, "BTC/USDT", "buy", 10.0, 60, 0, fetched).0;
    assert first.balance == 189.8;
    var second := Ordered(first, "BTC/USDT", "buy", 100.0, 60, 0, fetched).0;
    assert second.balance == 87.8;
    assert LatestPending(second.ledger) == Some(1);
  }

  /**
   * A 10 USDT bet on a rise from 100 placed from a balance of 100: a close
   * at 105 wins 7 and leaves 107, a close at 95 loses stake and fee and
   * leaves 89.8, and a close at 100, or no price at all, is a push that
   * leaves 100.
   */
  lemma TenOnARise(later: int)
    requires later >= 60 * Second
    ensures
      var placed := Ordered(Book(100.0, [], []), "BTC/USDT", "buy", 10.0, 60, 0, Some(100.0));
      && placed.1 == Success(Receipt(1, 0.2, 10.2))
      && Checked(placed.0, 1, later, Some(105.0)).0.balance == 107.0
      && Checked(placed.0, 1, later, Some(95.0)).0.balance == 89.8
      && Checked(placed.0, 1, later, Some(100.0)).0.balance == 100.0
      && Checked(placed.0, 1, later, None).0.balance == 100.0
  {
    Round6Exact(0.2);
    Round6Exact(7.0);
    var b := Book(100.0, [], []);
    OrderThenSettle(b, "BTC/USDT", "buy", 10.0, 60, 0, Some(100.0), later, Some(105.0));
    OrderThenSettle(b, "BTC/USDT", "buy", 10.0, 60, 0, Some(100.0), later, Some(95.0));
    OrderThenSettle(b, "BTC/USDT", "buy", 10.0, 60, 0, Some(100.0), later, Some(100.0));
    OrderThenSettle(b, "BTC/USDT", "buy", 10.0, 60, 0, Some(100.0), later, None);
  }
}
