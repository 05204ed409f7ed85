/** The Binance price feed's state (binance_feed.py): the last price of each
    tracked symbol and a bounded history of recent prices, updated one ticker
    message at a time. Decoding the JSON text is outside the model: a message
    arrives already decoded, or as `Malformed` when decoding (or reading its
    fields) would raise. */
module Feed {
  import opened Wrappers
  import opened Text

  /** The tracked symbols, lower-case. */
  const Symbols: seq<string> := ["btcusdt", "ethusdt", "solusdt", "xrpusdt"]

  /** Most samples kept per symbol. */
  const HistoryLimit: nat := 60

  datatype FeedState = FeedState(
    prices: map<string, real>,
    history: map<string, seq<real>>,
    running: bool)

  /** A ticker payload: `s` (symbol) and `c` (last price); `None` for an
      absent key. */
  datatype Payload = Payload(symbol: Option<string>, price: Option<real>)

  datatype Message =
    | Malformed                       // not JSON, a non-numeric price, a null payload
    | Combined(data: Option<Payload>) // a combined-stream envelope; `None` when it has no `data`
    | Plain(payload: Payload)         // a bare ticker payload

  /** An accepted price update. */
  datatype Tick = Tick(symbol: string, price: real)

  /** A well-formed history: at most `HistoryLimit` samples, all positive. */
  predicate HistoryOk(h: seq<real>) {
    |h| <= HistoryLimit && forall i :: 0 <= i < |h| ==> h[i] > 0.0
  }

  /** What the feed keeps for one tracked symbol: a well-formed history,
      and a current price exactly when the history is non-empty, that price
      being the newest sample. */
  ghost predicate SymbolOk(st: FeedState, s: string)
    requires s in st.history
  {
    var h := st.history[s];
    && HistoryOk(h)
    && (s in st.prices <==> h != [])
    && (s in st.prices ==> st.prices[s] == h[|h| - 1])
  }

  /** The feed's invariant: exactly the tracked symbols have a history, and
      each of them is kept as `SymbolOk` says. */
  ghost predicate Valid(st: FeedState) {
    && (forall s :: s in st.history <==> s in Symbols)
    && st.prices.Keys <= st.history.Keys
    && (forall s | s in st.history :: SymbolOk(st, s))
  }

  function EmptyHistories(symbols: seq<string>): (r: map<string, seq<real>>)
    ensures forall s :: s in r <==> s in symbols
    ensures forall s :: s in r ==> r[s] == []
  {
    if symbols == [] then map[] else EmptyHistories(symbols[1..])[symbols[0] := []]
  }

  /** `BinanceFeed.__init__` */
  function Init(): (r: FeedState)
    ensures Valid(r)
    ensures r.prices == map[] && !r.running
  {
    FeedState(map[], EmptyHistories(Symbols), false)
  }

  /** The payload a message carries: the envelope's `data` (an empty payload
      when absent) for a combined-stream message, the message itself
      otherwise. */
  function PayloadOf(msg: Message): Option<Payload> {
    match msg
    case Malformed => None
    case Combined(data) => Some(data.GetOr(Payload(None, None)))
    case Plain(p) => Some(p)
  }

  /** The price update a message makes, if any: its lower-cased symbol must
      be tracked and its price (0 when absent) positive. */
  function Accepted(msg: Message): (r: Option<Tick>)
    ensures r.Some? <==>
              PayloadOf(msg).Some? &&
              Lower(PayloadOf(msg).value.symbol.GetOr("")) in Symbols &&
              PayloadOf(msg).value.price.GetOr(0.0) > 0.0
    ensures r.Some? ==> r.value.symbol in Symbols && r.value.price > 0.0
    ensures r.Some? ==> r.value == Tick(Lower(PayloadOf(msg).value.symbol.value), PayloadOf(msg).value.price.value)
  {
    match PayloadOf(msg)
    case None => None
    case Some(p) =>
      var symbol := Lower(p.symbol.GetOr(""));
      var price := p.price.GetOr(0.0);
      if symbol in Symbols && price > 0.0 then Some(Tick(symbol, price)) else None
  }

  /** The last `n` elements of `s` (all of them when there are fewer). */
  function LastN<T>(s: seq<T>, n: nat): (r: seq<T>)
    ensures |r| == if |s| <= n then |s| else n
    ensures r == s[|s| - |r|..]
  {
    if |s| <= n then s else s[|s| - n..]
  }

  /** Appends a sample and drops the oldest one once there are more than
      `HistoryLimit`. */
  function Push(h: seq<real>, p: real): (r: seq<real>)
    requires |h| <= HistoryLimit
    ensures r == LastN(h + [p], HistoryLimit)
  {
    var appended := h + [p];
    if |appended| > HistoryLimit then appended[1..] else appended
  }

  /** Pushing a positive price keeps a history well formed, and the price
      becomes its newest sample. */
  lemma PushKeepsHistoryOk(h: seq<real>, p: real)
    requires HistoryOk(h) && p > 0.0
    ensures HistoryOk(Push(h, p))
    ensures Push(h, p) != [] && Push(h, p)[|Push(h, p)| - 1] == p
  {
    var a := h + [p];
    var r := Push(h, p);
    forall i | 0 <= i < |r|
      ensures r[i] > 0.0
    {
      assert r[i] == a[|a| - |r| + i];
    }
    assert r[|r| - 1] == a[|a| - 1];
  }

  /** Replacing one symbol's price and history by a well-formed history
      ending in that price keeps the invariant. */
  lemma SetSymbolKeepsValid(st: FeedState, symbol: string, p: real, h: seq<real>)
    requires Valid(st) && symbol in st.history
    requires HistoryOk(h) && h != [] && h[|h| - 1] == p
    ensures Valid(FeedState(st.prices[symbol := p], st.history[symbol := h], st.running))
  {
    var r := FeedState(st.prices[symbol := p], st.history[symbol := h], st.running);
    assert r.history.Keys == st.history.Keys;
    forall s | s in r.history
      ensures SymbolOk(r, s)
    {
      if s != symbol {
        assert SymbolOk(st, s);
        assert r.history[s] == st.history[s];
        assert (s in r.prices) == (s in st.prices);
      }
    }
  }

  /** Records an accepted tick: the new current price and the new newest
      sample. */
  function Apply(st: FeedState, t: Tick): (r: FeedState)
    requires Valid(st) && t.symbol in st.history && t.price > 0.0
    ensures Valid(r)
  {
    var prev := st.history[t.symbol];
    assert SymbolOk(st, t.symbol);
    var h := Push(prev, t.price);
    PushKeepsHistoryOk(prev, t.price);
    SetSymbolKeepsValid(st, t.symbol, t.price, h);
    FeedState(st.prices[t.symbol := t.price], st.history[t.symbol := h], st.running)
  }

  /** `_process_message` */
  function ProcessMessage(st: FeedState, msg: Message): (r: FeedState)
    requires Valid(st)
    ensures Valid(r)
    ensures r.running == st.running
    ensures Accepted(msg).None? ==> r == st
    ensures Accepted(msg).Some? ==>
              var t := Accepted(msg).value;
              && r.prices == st.prices[t.symbol := t.price]
              && r.history == st.history[t.symbol := LastN(st.history[t.symbol] + [t.price], HistoryLimit)]
  {
    match Accepted(msg)
    case None => st
    case Some(t) => Apply(st, t)
  }

  /** Processes messages in arrival order. */
  function ProcessAll(st: FeedState, msgs: seq<Message>): (r: FeedState)
    requires Valid(st)
    ensures Valid(r)
    decreases |msgs|
  {
    if msgs == [] then st else ProcessAll(ProcessMessage(st, msgs[0]), msgs[1..])
  }

  /** The price a message adds to the history of `symbol`, if any. */
  function PriceFor(msg: Message, symbol: string): seq<real> {
    var t := Accepted(msg);
    if t.Some? && t.value.symbol == symbol then [t.value.price] else []
  }

  /** The prices accepted for `symbol`, in arrival order. */
  function AcceptedPrices(msgs: seq<Message>, symbol: string): seq<real> {
    if msgs == [] then [] else PriceFor(msgs[0], symbol) + AcceptedPrices(msgs[1..], symbol)
  }

  /** One message changes a symbol's history only by what it adds for that
      symbol. */
  lemma StepHistory(st: FeedState, msg: Message, symbol: string)
    requires Valid(st) && symbol in st.history
    ensures symbol in ProcessMessage(st, msg).history
    ensures ProcessMessage(st, msg).history[symbol] == LastN(st.history[symbol] + PriceFor(msg, symbol), HistoryLimit)
  {
    var h := st.history[symbol];
    var r := ProcessMessage(st, msg);
    match Accepted(msg)
    case None =>
      assert SymbolOk(st, symbol);
      assert h + [] == h;
    case Some(t) =>
      if t.symbol != symbol {
        assert SymbolOk(st, symbol);
        assert r.history[symbol] == h;
        assert h + [] == h;
      } else {
        assert PriceFor(msg, symbol) == [t.price];
      }
  }

  /** Trimming before appending changes nothing once the result is trimmed. */
  lemma LastNAppend<T>(a: seq<T>, b: seq<T>, n: nat)
    ensures LastN(LastN(a, n) + b, n) == LastN(a + b, n)
  {
    if |a| > n {
      var t := LastN(a, n);
      assert t == a[|a| - n..];
      var x, y := LastN(t + b, n), LastN(a + b, n);
      assert |x| == |y|;
      forall i | 0 <= i < |x|
        ensures x[i] == y[i]
      {
        var k := |t + b| - |x| + i;
        assert x[i] == (t + b)[k];
        assert y[i] == (a + b)[|a| - n + k];
      }
    }
  }

  lemma TrimThenAppend<T>(h: seq<T>, mine: seq<T>, later: seq<T>, n: nat)
    ensures LastN(LastN(h + mine, n) + later, n) == LastN(h + (mine + later), n)
  {
    LastNAppend(h + mine, later, n);
    assert (h + mine) + later == h + (mine + later);
  }

  /** The history of a symbol is always the newest `HistoryLimit` of the
      prices accepted for it, the older history included. */
  lemma {:induction false} HistoryIsLastAccepted(st: FeedState, msgs: seq<Message>, symbol: string)
    requires Valid(st) && symbol in st.history
    ensures symbol in ProcessAll(st, msgs).history
    ensures ProcessAll(st, msgs).history[symbol] ==
              LastN(st.history[symbol] + AcceptedPrices(msgs, symbol), HistoryLimit)
    decreases |msgs|
  {
    var h := st.history[symbol];
    if msgs == [] {
      assert h + [] == h;
      assert HistoryOk(h);
    } else {
      var next := ProcessMessage(st, msgs[0]);
      var mine := PriceFor(msgs[0], symbol);
      var later := AcceptedPrices(msgs[1..], symbol);
      StepHistory(st, msgs[0], symbol);
      HistoryIsLastAccepted(next, msgs[1..], symbol);
      assert AcceptedPrices(msgs, symbol) == mine + later;
      TrimThenAppend(h, mine, later, HistoryLimit);
    }
  }

  /** From a fresh feed, the history is the newest 60 accepted prices. */
  lemma HistoryFromStart(msgs: seq<Message>, symbol: string)
    requires symbol in Symbols
    ensures ProcessAll(Init(), msgs).history[symbol] == LastN(AcceptedPrices(msgs, symbol), HistoryLimit)
  {
    HistoryIsLastAccepted(Init(), msgs, symbol);
    assert Init().history[symbol] + AcceptedPrices(msgs, symbol) == AcceptedPrices(msgs, symbol);
  }

  /** `get_price`: the current price of a symbol given in any letter case. */
  function GetPrice(st: FeedState, symbol: string): (r: Option<real>)
    ensures r.Some? <==> Lower(symbol) in st.prices
    ensures r.Some? ==> r.value == st.prices[Lower(symbol)]
  {
    if Lower(symbol) in st.prices then Some(st.prices[Lower(symbol)]) else None
  }

  /** An accepted tick is what `get_price` reports next, whatever the letter
      case of the query. */
  lemma PriceAfterTick(st: FeedState, msg: Message, query: string)
    requires Valid(st) && Accepted(msg).Some?
    requires Lower(query) == Accepted(msg).value.symbol
    ensures GetPrice(ProcessMessage(st, msg), query) == Some(Accepted(msg).value.price)
  {
  }

  /** The samples a volatility figure is computed from: the newest `window`
      prices, with Python's negative slicing for the edge cases (a zero
      window keeps everything, a negative one drops that many of the oldest). */
  function Window(h: seq<real>, window: int): (r: seq<real>)
    ensures |r| <= |h| && r == h[|h| - |r|..]
    ensures window > 0 ==> |r| == if window <= |h| then window else |h|
    ensures window == 0 ==> r == h
    ensures window < 0 ==> |r| == if -window <= |h| then |h| + window else 0
  {
    if |h| >= window then
      if window > 0 then h[|h| - window..]
      else if -window <= |h| then h[-window..]
      else []
    else h
  }

  /** `get_volatility` up to the volatility formula itself: the samples it
      would use, or `None` where it returns 0 for lack of two samples. */
  function VolatilitySamples(st: FeedState, symbol: string, window: int): (r: Option<seq<real>>)
    ensures var h := if Lower(symbol) in st.history then st.history[Lower(symbol)] else [];
            (r.None? <==> |h| < 2) && (r.Some? ==> r.value == Window(h, window))
  {
    var h := if Lower(symbol) in st.history then st.history[Lower(symbol)] else [];
    if |h| < 2 then None else Some(Window(h, window))
  }

  /** The default window of 30 uses the newest 30 samples once there are that
      many, and every sample before that. */
  lemma DefaultWindow(st: FeedState, symbol: string)
    requires Lower(symbol) in st.history && |st.history[Lower(symbol)]| >= 2
    ensures var h := st.history[Lower(symbol)];
            VolatilitySamples(st, symbol, 30) == Some(LastN(h, 30))
  {
  }

  /** `is_connected` */
  predicate IsConnected(st: FeedState) {
    st.running && st.prices != map[]
  }

  /** A fresh feed is not connected; a running feed is connected once any
      message has been accepted, and stays so. */
  lemma ConnectedAfterTick(st: FeedState, msg: Message)
    requires Valid(st)
    ensures !IsConnected(Init())
    ensures st.running && Accepted(msg).Some? ==> IsConnected(ProcessMessage(st, msg))
    ensures IsConnected(st) ==> IsConnected(ProcessMessage(st, msg))
  {
    if Accepted(msg).Some? {
      var t := Accepted(msg).value;
      assert t.symbol in ProcessMessage(st, msg).prices;
    }
    if IsConnected(st) {
      var s :| s in st.prices;
      assert s in ProcessMessage(st, msg).prices;
    }
  }

  /** Symbols match in any letter case. */
  lemma AcceptUpperCase()
    ensures Accepted(Plain(Payload(Some("BTCUSDT"), Some(65000.0)))) == Some(Tick("btcusdt", 65000.0))
  {
    assert Lower("BTCUSDT") == "btcusdt";
  }

  /** A combined-stream envelope carries its payload in `data`. */
  lemma AcceptCombined()
    ensures Accepted(Combined(Some(Payload(Some("ethusdt"), Some(3000.0))))) == Some(Tick("ethusdt", 3000.0))
  {
    assert Lower("ethusdt") == "ethusdt";
  }

  /** A symbol the feed does not track is rejected. */
  lemma RejectUntracked()
    ensures Accepted(Plain(Payload(Some("dogeusdt"), Some(0.1)))).None?
  {
    var d := Lower("dogeusdt");
    assert d[0] == 'd';
    NotTracked(d);
  }

  lemma NotTracked(x: string)
    requires x != [] && x[0] == 'd'
    ensures x !in Symbols
  {
    assert forall i :: 0 <= i < |Symbols| ==> Symbols[i][0] != 'd';
  }

  /** A zero price and a combined envelope without data are rejected. */
  lemma RejectExamples()
    ensures Accepted(Plain(Payload(Some("btcusdt"), Some(0.0)))).None?
    ensures Accepted(Combined(None)).None?
  {
    assert Lower("") == "";
  }
}
