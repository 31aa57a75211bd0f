/** One stock card's simulated ticker and its two one-shot alerts
    (components/StockCard.tsx).

    At render the card fixes its side (BUY or not), its target and its
    stop-loss from the stock entry, and starts from the entry's current
    price. Every five seconds the price takes a small random step; the
    step's direction is shown, and each armed alert whose level the new
    price has reached is reported once and disarms itself. The user arms
    and disarms each alert with its bell button.

    The timer is left out: a run is a sequence of inputs, each either a
    tick carrying the value `Math.random()` returned or a press of one of
    the two buttons. Prices are exact reals. */
module StockCard {
  import opened Base
  import opened JsValues
  import opened Types
  import opened AnalysisMapping
  import opened Price

  /** The fraction of the price one tick may move, peak to peak. */
  const Volatility: real := 0.0015

  datatype Direction = Up | Down | Neutral

  datatype AlertKind = TargetAlert | StopLossAlert {
    function Name(): string {
      match this
      case TargetAlert => "TARGET"
      case StopLossAlert => "STOP_LOSS"
    }
  }

  /** A call of the card's `onAlertTrigger` listener. */
  datatype AlertEvent = AlertEvent(symbol: Option<Json>, kind: AlertKind, price: real)

  /** What the card fixes from its stock entry at render time. */
  datatype Card = Card(symbol: Option<Json>, isBuy: bool, target: real, stopLoss: real)

  /** The card's state: the live price, the two alert switches and the
      direction of the last step. */
  datatype CardState = CardState(livePrice: real, targetArmed: bool, stopArmed: bool, direction: Direction)

  datatype Mounted = Mounted(card: Card, state: CardState)

  /** A new state and the alerts reported on the way to it, in order. */
  datatype Step = Step(state: CardState, events: seq<AlertEvent>)

  /** `stock.recommendation === RecommendationType.BUY`. */
  predicate IsBuySide(stock: StockRecommendation) {
    stock.recommendation == Some(JStr(Buy.Name()))
  }

  /** The BUY test is exactly "the field decodes to the BUY recommendation". */
  lemma {:induction false} IsBuySideDecodes(stock: StockRecommendation)
    ensures IsBuySide(stock) <==> DecodeRecommendation(stock.recommendation) == Some(Buy)
  {
    match stock.recommendation
    case Some(JStr(s)) =>
      assert RecommendationFromName(s) == Some(Buy) <==> Buy.Name() == s;
    case _ =>
  }

  // ------------------------------------------------------------ mounting

  /** The price extraction applied to a field as the card does it: the
      `replace` calls exist on strings only, so any other value (a number,
      `null`, `undefined`) makes the render throw, here `None`. */
  function ReadPrice(v: Option<Json>): (r: Option<real>)
    ensures r.Some? <==> v.Some? && v.value.JStr?
    ensures r.Some? ==> r.value == ParsePrice(v.value.s) && r.value >= 0.0
  {
    match v
    case Some(JStr(s)) => Some(ParsePrice(s))
    case _ => None
  }

  /** A value React accepts as a child: anything but a plain object, an
      array when each of its elements is one. */
  predicate Renderable(v: Json) {
    match v
    case JObj(_) => false
    case JArr(items) => forall i :: 0 <= i < |items| ==> Renderable(items[i])
    case _ => true
  }

  /** `undefined` renders as nothing. */
  predicate RenderableField(v: Option<Json>) {
    v.None? || Renderable(v.value)
  }

  /** What the first render needs besides readable prices:
      `setupType.replace('_', ' ')` exists on strings only, and every field
      the card shows as a child must be renderable. */
  predicate RendersFields(stock: StockRecommendation) {
    && stock.setupType.JStr?
    && RenderableField(stock.symbol)
    && Renderable(stock.tradeHorizon)
    && RenderableField(stock.companyName)
    && RenderableField(stock.recommendation)
    && Renderable(stock.entryRange)
    && Renderable(stock.targetPrice)
    && Renderable(stock.stopLoss)
    && RenderableField(stock.volumeAnalysis)
    && RenderableField(stock.sector)
    && RenderableField(stock.newsSummary)
    && RenderableField(stock.reasoning)
  }

  /** The card's first render, as written: it fails unless the current
      price, the target and the stop-loss all hold strings, and the other
      shown fields render. */
  function Mount(stock: StockRecommendation): (r: Option<Mounted>)
    ensures r.Some? <==> ReadPrice(stock.currentPrice).Some?
                         && ReadPrice(Some(stock.targetPrice)).Some?
                         && ReadPrice(Some(stock.stopLoss)).Some?
                         && RendersFields(stock)
    ensures r.Some? ==> r.value.state.livePrice >= 0.0
    ensures r.Some? ==> !r.value.state.targetArmed && !r.value.state.stopArmed && r.value.state.direction == Direction.Neutral
    ensures r.Some? ==> (r.value.card.isBuy <==> DecodeRecommendation(stock.recommendation) == Some(Buy))
    ensures r.Some? ==> && r.value.state.livePrice == ReadPrice(stock.currentPrice).value
                        && r.value.card.target == ReadPrice(Some(stock.targetPrice)).value
                        && r.value.card.stopLoss == ReadPrice(Some(stock.stopLoss)).value
                        && r.value.card.symbol == stock.symbol
  {
    IsBuySideDecodes(stock);
    if !RendersFields(stock) then None
    else
      match (ReadPrice(stock.currentPrice), ReadPrice(Some(stock.targetPrice)), ReadPrice(Some(stock.stopLoss)))
      case (Some(p), Some(t), Some(l)) =>
        Some(Mounted(Card(stock.symbol, IsBuySide(stock), t, l), CardState(p, false, false, Direction.Neutral)))
      case _ => None
  }

  /** A field's price as the corrected render reads it: text through the
      card's extraction, a number as its magnitude (the text of a negative
      number loses its minus sign to the sanitiser), anything else as 0, as
      the `|| 0` fallback already treats unparsable text. */
  function TolerantPrice(v: Option<Json>): (r: real)
    ensures r >= 0.0
    ensures ReadPrice(v).Some? ==> r == ReadPrice(v).value
    ensures v.Some? && v.value.JNum? ==> r == v.value.n || r == -v.value.n
    ensures !(v.Some? && (v.value.JStr? || v.value.JNum?)) ==> r == 0.0
  {
    match v
    case Some(JStr(s)) => ParsePrice(s)
    case Some(JNum(n)) => if n >= 0.0 then n else -n
    case _ => 0.0
  }

  /** The first render as evidently intended: a price field of any shape
      is read, so the render fails only for the reasons that have nothing
      to do with prices. */
  function MountTolerant(stock: StockRecommendation): (r: Option<Mounted>)
    ensures r.Some? <==> RendersFields(stock)
    ensures Mount(stock).Some? ==> r == Mount(stock)
    ensures r.Some? ==> r.value.state.livePrice >= 0.0 && r.value.card.target >= 0.0 && r.value.card.stopLoss >= 0.0
    ensures r.Some? ==> !r.value.state.targetArmed && !r.value.state.stopArmed && r.value.state.direction == Direction.Neutral
    ensures r.Some? ==> r.value.card.symbol == stock.symbol
    ensures r.Some? ==> (r.value.card.isBuy <==> DecodeRecommendation(stock.recommendation) == Some(Buy))
    ensures r.Some? ==> && r.value.state.livePrice == TolerantPrice(stock.currentPrice)
                        && r.value.card.target == TolerantPrice(Some(stock.targetPrice))
                        && r.value.card.stopLoss == TolerantPrice(Some(stock.stopLoss))
  {
    IsBuySideDecodes(stock);
    if !RendersFields(stock) then None
    else
      Some(Mounted(
        Card(stock.symbol, IsBuySide(stock), TolerantPrice(Some(stock.targetPrice)), TolerantPrice(Some(stock.stopLoss))),
        CardState(TolerantPrice(stock.currentPrice), false, false, Direction.Neutral)))
  }

  /** An entry whose fields are all strings or numbers renders, as long as
      `setupType` is not a number. */
  lemma {:induction false} FlatEntryRenders(s: Json)
    requires s.JObj?
    requires forall k :: k in s.fields ==> s.fields[k].JStr? || s.fields[k].JNum?
    requires "setupType" in s.fields ==> !s.fields["setupType"].JNum?
    ensures MapStock(s).Ok? && RendersFields(MapStock(s).value)
    ensures MountTolerant(MapStock(s).value).Some?
  {
    MapStockFields(s);
  }

  /** A flat entry whose current price is a JSON number maps, the card's
      first render fails on it, and the tolerant render starts the ticker
      at the number's magnitude. */
  lemma {:induction false} NumericCurrentPrice(s: Json)
    requires s.JObj?
    requires forall k :: k in s.fields ==> s.fields[k].JStr? || s.fields[k].JNum?
    requires "setupType" in s.fields ==> !s.fields["setupType"].JNum?
    requires "currentPrice" in s.fields && s.fields["currentPrice"].JNum?
    ensures MapStock(s).Ok?
    ensures Mount(MapStock(s).value).None?
    ensures MountTolerant(MapStock(s).value).Some?
    ensures s.fields["currentPrice"].n >= 0.0 ==> MountTolerant(MapStock(s).value).value.state.livePrice == s.fields["currentPrice"].n
  {
    FlatEntryRenders(s);
    MapStockFields(s);
    var stock := MapStock(s).value;
    assert stock.currentPrice == Some(s.fields["currentPrice"]);
    assert ReadPrice(stock.currentPrice).None?;
  }

  /** A stock entry whose current price the model sent as a JSON number. */
  const NumericPriceEntry: Json :=
    JObj(map["symbol" := JStr("TCS"), "currentPrice" := JNum(3850.5 as real),
             "targetPrice" := JStr("3950"), "stopLoss" := JStr("3800")])

  /** The normaliser accepts the entry and copies the number through, and
      the card's first render then fails; the tolerant render starts the
      ticker at the number sent. */
  lemma {:induction false} NumericPriceBreaksMount()
    ensures MapStock(NumericPriceEntry).Ok?
    ensures Mount(MapStock(NumericPriceEntry).value).None?
    ensures MountTolerant(MapStock(NumericPriceEntry).value).Some?
    ensures MountTolerant(MapStock(NumericPriceEntry).value).value.state.livePrice == 3850.5 as real
  {
    var e := NumericPriceEntry;
    assert "setupType" !in e.fields;
    NumericCurrentPrice(e);
  }

  // ------------------------------------------------------------- ticking

  /** One random step: `prev + prev * volatility * (u - 0.5)`. */
  function Move(prev: real, u: real): real {
    prev + prev * Volatility * (u - 0.5)
  }

  /** The target level is reached: at or above it when buying, at or below
      it otherwise. */
  predicate TargetHit(card: Card, p: real) {
    (card.isBuy && p >= card.target) || (!card.isBuy && p <= card.target)
  }

  /** The stop-loss level is reached: at or below it when buying, at or
      above it otherwise. */
  predicate StopHit(card: Card, p: real) {
    (card.isBuy && p <= card.stopLoss) || (!card.isBuy && p >= card.stopLoss)
  }

  /** The alert engine's notion of "reached" is the mirror image for the
      two levels: the stop-loss of a buyer is tested as a seller's target. */
  lemma {:induction false} StopIsMirroredTarget(card: Card, p: real)
    ensures StopHit(card, p) <==> TargetHit(Card(card.symbol, !card.isBuy, card.stopLoss, card.target), p)
  {
  }

  function CountKind(es: seq<AlertEvent>, k: AlertKind): (n: nat)
    ensures n <= |es|
  {
    if es == [] then 0 else (if es[0].kind == k then 1 else 0) + CountKind(es[1..], k)
  }

  lemma {:induction false} CountKindAppend(a: seq<AlertEvent>, b: seq<AlertEvent>, k: AlertKind)
    ensures CountKind(a + b, k) == CountKind(a, k) + CountKind(b, k)
  {
    if a == [] {
      assert a + b == b;
    } else {
      assert (a + b)[1..] == a[1..] + b;
      CountKindAppend(a[1..], b, k);
    }
  }

  predicate Armed(st: CardState, k: AlertKind) {
    match k
    case TargetAlert => st.targetArmed
    case StopLossAlert => st.stopArmed
  }

  /** The body of the price updater once the new price `p` is known: the
      direction against the previous price (never `Neutral` again), then
      the target check, then the stop-loss check. */
  function Observe(card: Card, st: CardState, p: real): (r: Step)
    ensures r.state.livePrice == p
    ensures r.state.direction == Up <==> p > st.livePrice
    ensures r.state.direction != Direction.Neutral
    ensures r.state.targetArmed <==> st.targetArmed && !TargetHit(card, p)
    ensures r.state.stopArmed <==> st.stopArmed && !StopHit(card, p)
    ensures forall k :: CountKind(r.events, k) == (if Armed(st, k) && !Armed(r.state, k) then 1 else 0)
    ensures forall i :: 0 <= i < |r.events| ==> r.events[i].symbol == card.symbol && r.events[i].price == p
    ensures |r.events| == 2 ==> r.events[0].kind == TargetAlert && r.events[1].kind == StopLossAlert
  {
    var fireTarget := st.targetArmed && TargetHit(card, p);
    var fireStop := st.stopArmed && StopHit(card, p);
    var targetEvents := if fireTarget then [AlertEvent(card.symbol, TargetAlert, p)] else [];
    var stopEvents := if fireStop then [AlertEvent(card.symbol, StopLossAlert, p)] else [];
    CountKindAppend(targetEvents, stopEvents, TargetAlert);
    CountKindAppend(targetEvents, stopEvents, StopLossAlert);
    Step(CardState(p, st.targetArmed && !fireTarget, st.stopArmed && !fireStop, if p > st.livePrice then Up else Down),
         targetEvents + stopEvents)
  }

  /** One timer tick, `u` being the value `Math.random()` returned. */
  function Tick(card: Card, st: CardState, u: real): Step {
    Observe(card, st, Move(st.livePrice, u))
  }

  /** A non-negative price stays within 0.075% of where it was, so it stays
      non-negative; and it rises exactly when it is positive and the draw is
      above one half. */
  lemma {:induction false} MoveBounds(prev: real, u: real)
    requires prev >= 0.0 && 0.0 <= u < 1.0
    ensures prev - prev * 0.00075 <= Move(prev, u) <= prev + prev * 0.00075
    ensures Move(prev, u) >= 0.0
    ensures Move(prev, u) > prev <==> prev > 0.0 && u > 0.5
  {
    var d := u - 0.5;
    assert -0.5 <= d < 0.5;
    assert Move(prev, u) - prev == prev * (Volatility * d);
    assert -0.00075 <= Volatility * d <= 0.00075;
    MulBetween(prev, Volatility * d, -0.00075, 0.00075);
    SignOfProduct(prev, Volatility * d);
  }

  lemma {:induction false} MulBetween(x: real, y: real, lo: real, hi: real)
    requires x >= 0.0 && lo <= y <= hi
    ensures x * lo <= x * y <= x * hi
  {
    assert x * (y - lo) >= 0.0;
    assert x * (hi - y) >= 0.0;
  }

  lemma {:induction false} SignOfProduct(x: real, y: real)
    requires x >= 0.0
    ensures x * y > 0.0 <==> x > 0.0 && y > 0.0
  {
    assert x > 0.0 && y <= 0.0 ==> x * y <= 0.0;
  }

  /** A card that started at 0 (an unparsable current price) stays at 0. */
  lemma {:induction false} ZeroPriceIsStuck(u: real)
    ensures Move(0.0, u) == 0.0
  {
  }

  // ------------------------------------------------------------- buttons

  /** The target bell: `setTargetAlert(!targetAlert)`. */
  function ToggleTarget(st: CardState): (r: CardState)
    ensures r.targetArmed != st.targetArmed
    ensures r.livePrice == st.livePrice && r.stopArmed == st.stopArmed && r.direction == st.direction
  {
    st.(targetArmed := !st.targetArmed)
  }

  /** The stop-loss bell: `setSlAlert(!slAlert)`. */
  function ToggleStop(st: CardState): (r: CardState)
    ensures r.stopArmed != st.stopArmed
    ensures r.livePrice == st.livePrice && r.targetArmed == st.targetArmed && r.direction == st.direction
  {
    st.(stopArmed := !st.stopArmed)
  }

  /** Pressing a bell twice leaves the card as it was. */
  lemma {:induction false} ToggleTwice(st: CardState)
    ensures ToggleTarget(ToggleTarget(st)) == st
    ensures ToggleStop(ToggleStop(st)) == st
  {
  }

  // ----------------------------------------------------------------- runs

  datatype Input = TickInput(u: real) | PressTarget | PressStop

  predicate Presses(inp: Input, k: AlertKind) {
    match k
    case TargetAlert => inp.PressTarget?
    case StopLossAlert => inp.PressStop?
  }

  function CountPresses(inputs: seq<Input>, k: AlertKind): (n: nat)
    ensures n <= |inputs|
  {
    if inputs == [] then 0 else (if Presses(inputs[0], k) then 1 else 0) + CountPresses(inputs[1..], k)
  }

  function Apply(card: Card, st: CardState, inp: Input): (r: Step)
    ensures !inp.TickInput? ==> r.events == []
    ensures forall k :: Armed(r.state, k) != Armed(st, k) ==> Presses(inp, k) || (CountKind(r.events, k) == 1 && !Armed(r.state, k))
    ensures forall k :: CountKind(r.events, k) + (if Armed(r.state, k) then 1 else 0)
                        <= (if Armed(st, k) then 1 else 0) + (if Presses(inp, k) then 1 else 0)
  {
    match inp
    case TickInput(u) => Tick(card, st, u)
    case PressTarget => Step(ToggleTarget(st), [])
    case PressStop => Step(ToggleStop(st), [])
  }

  /** A whole run from state `st`: the final state and every alert reported,
      in order. */
  function Run(card: Card, st: CardState, inputs: seq<Input>): (r: Step)
    ensures |r.events| <= 2 * |inputs|
    ensures forall i :: 0 <= i < |r.events| ==> r.events[i].symbol == card.symbol
    decreases |inputs|
  {
    if inputs == [] then Step(st, [])
    else
      var first := Apply(card, st, inputs[0]);
      var rest := Run(card, first.state, inputs[1..]);
      Step(rest.state, first.events + rest.events)
  }

  /** One-shot alerts: over any run, the alerts of a kind plus the final
      switch position never exceed the initial position plus the presses of
      that kind's button. So an alert fires at most once per arming, and
      never while its switch stays off. */
  lemma {:induction false} OneShot(card: Card, st: CardState, inputs: seq<Input>, k: AlertKind)
    ensures CountKind(Run(card, st, inputs).events, k) + (if Armed(Run(card, st, inputs).state, k) then 1 else 0)
            <= (if Armed(st, k) then 1 else 0) + CountPresses(inputs, k)
    decreases |inputs|
  {
    if inputs != [] {
      var first := Apply(card, st, inputs[0]);
      OneShot(card, first.state, inputs[1..], k);
      CountKindAppend(first.events, Run(card, first.state, inputs[1..]).events, k);
    }
  }

  /** With its button never pressed, a disarmed alert stays silent. */
  lemma {:induction false} SilentWhileDisarmed(card: Card, st: CardState, inputs: seq<Input>, k: AlertKind)
    requires !Armed(st, k) && CountPresses(inputs, k) == 0
    ensures CountKind(Run(card, st, inputs).events, k) == 0
  {
    OneShot(card, st, inputs, k);
  }

  /** Every draw is a value `Math.random()` can return. */
  predicate ValidDraws(inputs: seq<Input>) {
    forall i :: 0 <= i < |inputs| && inputs[i].TickInput? ==> 0.0 <= inputs[i].u < 1.0
  }

  /** The simulated price never goes negative. */
  lemma {:induction false} PriceStaysNonNegative(card: Card, st: CardState, inputs: seq<Input>)
    requires st.livePrice >= 0.0 && ValidDraws(inputs)
    ensures Run(card, st, inputs).state.livePrice >= 0.0
    decreases |inputs|
  {
    if inputs != [] {
      if inputs[0].TickInput? {
        MoveBounds(st.livePrice, inputs[0].u);
      }
      var first := Apply(card, st, inputs[0]);
      assert ValidDraws(inputs[1..]) by {
        assert forall i :: 0 <= i < |inputs[1..]| ==> inputs[1..][i] == inputs[i + 1];
      }
      PriceStaysNonNegative(card, first.state, inputs[1..]);
    }
  }

  // ------------------------------------------------------------ scenarios

  /** A BUY card with target 110, armed: reaching 110.5 reports one target
      alert at 110.5 and disarms it; climbing through 110 again reports
      nothing. */
  lemma {:induction false} BuyTargetFiresOnce(symbol: Option<Json>, prev: real)
    ensures var card := Card(symbol, true, 110.0, 90.0);
            var s1 := Observe(card, CardState(prev, true, false, Direction.Neutral), 110.5);
            var s2 := Observe(card, s1.state, 111.0);
            s1.events == [AlertEvent(symbol, TargetAlert, 110.5)] && !s1.state.targetArmed && s2.events == []
  {
  }

  /** A SELL card with stop-loss 100, armed: reaching 101 reports one
      stop-loss alert; falling back to 99 reports nothing. */
  lemma {:induction false} SellStopFiresOnce(symbol: Option<Json>, prev: real)
    ensures var card := Card(symbol, false, 90.0, 100.0);
            var s1 := Observe(card, CardState(prev, false, true, Direction.Neutral), 101.0);
            var s2 := Observe(card, s1.state, 99.0);
            s1.events == [AlertEvent(symbol, StopLossAlert, 101.0)] && !s1.state.stopArmed && s2.events == []
  {
  }
}
