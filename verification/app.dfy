/** The application shell's own state (App.tsx): the toast list, the relay
    from a card's alert to a toast, and the scan state a scan moves through.

    `Date.now()` is an input (`now`), and so are the texts a template
    literal makes of a symbol and of `price.toFixed(2)`. The five-second
    timer of a toast is its later `RemoveToast` with the same id. */
module App {
  import opened Base
  import opened Seqs
  import opened JsValues
  import opened Types
  import opened GeminiService
  import opened StockCard

  datatype ToastType = Success | Danger

  datatype Toast = Toast(id: int, message: string, kind: ToastType)

  // --------------------------------------------------------------- toasts

  /** `addToast`'s state update: the new toast goes last. */
  function AddToast(toasts: seq<Toast>, id: int, message: string, kind: ToastType): (r: seq<Toast>)
    ensures |r| == |toasts| + 1
    ensures r[..|toasts|] == toasts
    ensures r[|toasts|].id == id && r[|toasts|].message == message && r[|toasts|].kind == kind
  {
    toasts + [Toast(id, message, kind)]
  }

  function OtherThan(id: int): Toast -> bool {
    (t: Toast) => t.id != id
  }

  /** `removeToast`, and the expiry timer's update: drop every toast with
      the given id, keeping the rest in order. */
  function RemoveToast(toasts: seq<Toast>, id: int): (r: seq<Toast>)
    ensures forall i :: 0 <= i < |r| ==> r[i].id != id
    ensures forall i :: 0 <= i < |toasts| && toasts[i].id != id ==> toasts[i] in r
    ensures forall i :: 0 <= i < |r| ==> r[i] in toasts
    ensures IsSubsequence(r, toasts)
    ensures |r| == |toasts| <==> forall i :: 0 <= i < |toasts| ==> toasts[i].id != id
  {
    FilterIsSubsequence(OtherThan(id), toasts);
    FilterMembers(OtherThan(id), toasts);
    Filter(OtherThan(id), toasts)
  }

  predicate HasId(toasts: seq<Toast>, id: int) {
    exists i :: 0 <= i < |toasts| && toasts[i].id == id
  }

  /** Removing an id nobody carries changes nothing. */
  lemma {:induction false} RemoveAbsent(toasts: seq<Toast>, id: int)
    requires !HasId(toasts, id)
    ensures RemoveToast(toasts, id) == toasts
  {
    FilterAll(OtherThan(id), toasts);
  }

  /** A second removal of the same id (the timer firing after the close
      button) changes nothing. */
  lemma {:induction false} RemoveTwice(toasts: seq<Toast>, id: int)
    ensures RemoveToast(RemoveToast(toasts, id), id) == RemoveToast(toasts, id)
  {
    FilterIdempotent(OtherThan(id), toasts);
  }

  /** Expiries and dismissals of different toasts may happen in any order. */
  lemma {:induction false} RemovalsCommute(toasts: seq<Toast>, a: int, b: int)
    ensures RemoveToast(RemoveToast(toasts, a), b) == RemoveToast(RemoveToast(toasts, b), a)
  {
    FilterCommute(OtherThan(b), OtherThan(a), toasts);
  }

  /** Removal acts on each part of the list separately. */
  lemma {:induction false} RemoveAppend(a: seq<Toast>, b: seq<Toast>, id: int)
    ensures RemoveToast(a + b, id) == RemoveToast(a, id) + RemoveToast(b, id)
  {
    FilterAppend(OtherThan(id), a, b);
  }

  /** Expiring a toast whose id was fresh undoes exactly its addition, even
      after other toasts were added behind it. */
  lemma {:induction false} ExpiryUndoesAdd(toasts: seq<Toast>, id: int, message: string, kind: ToastType, later: seq<Toast>)
    requires !HasId(toasts, id) && !HasId(later, id)
    ensures RemoveToast(AddToast(toasts, id, message, kind) + later, id) == toasts + later
  {
    var t := Toast(id, message, kind);
    var added := AddToast(toasts, id, message, kind);
    assert added == toasts + [t];
    assert RemoveToast([t], id) == [] by {
      FilterSingleton(OtherThan(id), t);
    }
    assert RemoveToast(added, id) == toasts by {
      RemoveAppend(toasts, [t], id);
      RemoveAbsent(toasts, id);
    }
    assert RemoveToast(later, id) == later by {
      RemoveAbsent(later, id);
    }
    RemoveAppend(added, later, id);
  }

  // ---------------------------------------------------------------- relay

  /** The toast colour of an alert: success for a target, danger for a
      stop-loss. */
  function ToastTypeFor(kind: AlertKind): (r: ToastType)
    ensures r == Success <==> kind == TargetAlert
    ensures r == Danger <==> kind == StopLossAlert
  {
    match kind
    case TargetAlert => Success
    case StopLossAlert => Danger
  }

  /** The toast text of an alert, given the texts of its symbol and of its
      price with two decimals. */
  function AlertMessage(kind: AlertKind, symbolText: string, priceText: string): string {
    if kind == TargetAlert then symbolText + " hit Target Price at " + priceText + "!"
    else symbolText + " hit Stop Loss at " + priceText + "!"
  }

  /** A reader can tell the two alerts apart: for the same symbol and price
      the messages differ, and each starts with the symbol. */
  lemma {:induction false} AlertMessagesDiffer(symbolText: string, priceText: string)
    ensures AlertMessage(TargetAlert, symbolText, priceText) != AlertMessage(StopLossAlert, symbolText, priceText)
    ensures forall k :: AlertMessage(k, symbolText, priceText)[..|symbolText|] == symbolText
  {
    var n := |symbolText| + 5;
    assert AlertMessage(TargetAlert, symbolText, priceText)[n] == 'T';
    assert AlertMessage(StopLossAlert, symbolText, priceText)[n] == 'S';
  }

  /** For a given symbol, the toast text determines the alert: its kind and
      the price shown. */
  lemma {:induction false} AlertMessageInjective(symbolText: string, k1: AlertKind, p1: string, k2: AlertKind, p2: string)
    requires AlertMessage(k1, symbolText, p1) == AlertMessage(k2, symbolText, p2)
    ensures k1 == k2 && p1 == p2
  {
    var m := AlertMessage(k1, symbolText, p1);
    var n := |symbolText| + 5;
    assert AlertMessage(k1, symbolText, p1)[n] == (if k1 == TargetAlert then 'T' else 'S');
    assert AlertMessage(k2, symbolText, p2)[n] == (if k2 == TargetAlert then 'T' else 'S');
    var mid := if k1 == TargetAlert then " hit Target Price at " else " hit Stop Loss at ";
    assert m == symbolText + mid + p1 + "!";
    assert m == symbolText + mid + p2 + "!";
    assert p1 == m[|symbolText| + |mid|..|m| - 1];
    assert p2 == m[|symbolText| + |mid|..|m| - 1];
  }

  /** `handleAlertTrigger`: one toast per alert, stamped with `now`. */
  function HandleAlertTrigger(toasts: seq<Toast>, now: int, kind: AlertKind, symbolText: string, priceText: string): (r: seq<Toast>)
    ensures |r| == |toasts| + 1 && r[..|toasts|] == toasts
    ensures r[|toasts|].kind == Success <==> kind == TargetAlert
    ensures r[|toasts|].id == now
    ensures r[|toasts|].message == AlertMessage(kind, symbolText, priceText)
  {
    AddToast(toasts, now, AlertMessage(kind, symbolText, priceText), ToastTypeFor(kind))
  }

  /** A BUY card whose current price, target and stop-loss were all
      unreadable: every level is 0, and so is the price. */
  const TbdCard: Card := Card(None, true, 0.0, 0.0)

  /** As written, such a card with both alerts armed reports both on its
      first tick, within the same millisecond; the two toasts share their
      id, and closing (or expiring) the first removes the second with it. */
  lemma {:induction false} SameTickToastsCollide(u: real, now: int, symbolText: string, priceText: string)
    ensures var step := Tick(TbdCard, CardState(0.0, true, true, Direction.Neutral), u);
            |step.events| == 2 && step.events[0].kind == TargetAlert && step.events[1].kind == StopLossAlert
    ensures var ts := HandleAlertTrigger(HandleAlertTrigger([], now, TargetAlert, symbolText, priceText),
                                         now, StopLossAlert, symbolText, priceText);
            |ts| == 2 && RemoveToast(ts, ts[0].id) == []
  {
    ZeroPriceIsStuck(u);
    var ts := HandleAlertTrigger(HandleAlertTrigger([], now, TargetAlert, symbolText, priceText),
                                 now, StopLossAlert, symbolText, priceText);
    assert ts[0].id == now && ts[1].id == now;
    assert ts == [ts[0]] + [ts[1]];
    RemoveAppend([ts[0]], [ts[1]], now);
    FilterSingleton(OtherThan(now), ts[0]);
    FilterSingleton(OtherThan(now), ts[1]);
  }

  /** The toast list with ids drawn from a counter instead of the clock. */
  datatype ToastStore = ToastStore(toasts: seq<Toast>, nextId: int)

  /** Every id is below the counter and no two toasts share one. */
  ghost predicate StoreValid(st: ToastStore) {
    && (forall i :: 0 <= i < |st.toasts| ==> st.toasts[i].id < st.nextId)
    && (forall i, j :: 0 <= i < j < |st.toasts| ==> st.toasts[i].id != st.toasts[j].id)
  }

  /** `addToast` with a fresh id: the new toast takes the counter's value. */
  function AddFresh(st: ToastStore, message: string, kind: ToastType): (r: ToastStore)
    requires StoreValid(st)
    ensures StoreValid(r)
    ensures r.toasts == AddToast(st.toasts, st.nextId, message, kind)
    ensures !HasId(st.toasts, st.nextId)
  {
    ToastStore(AddToast(st.toasts, st.nextId, message, kind), st.nextId + 1)
  }

  /** Relaying an alert into the counter-based store. */
  function HandleAlertFresh(st: ToastStore, kind: AlertKind, symbolText: string, priceText: string): (r: ToastStore)
    requires StoreValid(st)
    ensures StoreValid(r)
    ensures |r.toasts| == |st.toasts| + 1 && r.toasts[..|st.toasts|] == st.toasts
    ensures r.toasts == st.toasts + [r.toasts[|st.toasts|]]
    ensures r.toasts[|st.toasts|].id == st.nextId && r.nextId == st.nextId + 1
    ensures r.toasts[|st.toasts|].kind == Success <==> kind == TargetAlert
    ensures r.toasts[|st.toasts|].message == AlertMessage(kind, symbolText, priceText)
  {
    AddFresh(st, AlertMessage(kind, symbolText, priceText), ToastTypeFor(kind))
  }

  /** With counter ids, closing any one toast removes that toast and no
      other. */
  lemma {:induction false} RemoveOneOfDistinct(toasts: seq<Toast>, k: nat)
    requires k < |toasts|
    requires forall i, j :: 0 <= i < j < |toasts| ==> toasts[i].id != toasts[j].id
    ensures RemoveToast(toasts, toasts[k].id) == toasts[..k] + toasts[k + 1..]
  {
    var id := toasts[k].id;
    forall i | 0 <= i < |toasts| && i != k
      ensures OtherThan(id)(toasts[i])
    {
      if i < k {
        assert toasts[i].id != toasts[k].id;
      } else {
        assert toasts[k].id != toasts[i].id;
      }
    }
    FilterRejectsOne(OtherThan(id), toasts, k);
  }

  /** The two alerts of one tick, relayed into the counter-based store, stay
      separate: closing the first leaves the second. */
  lemma {:induction false} SameTickToastsSeparate(st: ToastStore, symbolText: string, priceText: string)
    requires StoreValid(st)
    ensures var s2 := HandleAlertFresh(HandleAlertFresh(st, TargetAlert, symbolText, priceText), StopLossAlert, symbolText, priceText);
            var n := |st.toasts|;
            RemoveToast(s2.toasts, s2.toasts[n].id) == st.toasts + [s2.toasts[n + 1]]
  {
    var s1 := HandleAlertFresh(st, TargetAlert, symbolText, priceText);
    var s2 := HandleAlertFresh(s1, StopLossAlert, symbolText, priceText);
    var n := |st.toasts|;
    var x, y := s1.toasts[n], s2.toasts[n + 1];
    assert s2.toasts == (st.toasts + [x]) + [y];
    assert s2.toasts[n] == x;
    RemoveLatestButOne(st.toasts, x, y);
  }

  /** Of two toasts just added with different ids, removing the first's id
      leaves the older toasts and the second. */
  lemma {:induction false} RemoveLatestButOne(toasts: seq<Toast>, x: Toast, y: Toast)
    requires !HasId(toasts, x.id) && y.id != x.id
    ensures RemoveToast((toasts + [x]) + [y], x.id) == toasts + [y]
  {
    assert RemoveToast(toasts, x.id) == toasts by {
      RemoveAbsent(toasts, x.id);
    }
    assert RemoveToast([x], x.id) == [] && RemoveToast([y], x.id) == [y] by {
      FilterSingleton(OtherThan(x.id), x);
      FilterSingleton(OtherThan(x.id), y);
    }
    RemoveAppend(toasts, [x], x.id);
    RemoveAppend(toasts + [x], [y], x.id);
  }

  // ----------------------------------------------------------------- scan

  const FallbackMessage: string := "Something went wrong during analysis."

  /** The loading flag, the last analysis and the last error message. */
  datatype ScanState = ScanState(loading: bool, data: Option<MarketAnalysis>, error: Option<string>)

  /** The page never shows an analysis and an error at once, and shows
      neither while loading. */
  predicate Coherent(st: ScanState) {
    && !(st.data.Some? && st.error.Some?)
    && (st.loading ==> st.data.None? && st.error.None?)
  }

  /** The synchronous start of `handleAnalyze`. */
  function StartScan(st: ScanState): (r: ScanState)
    ensures r.loading && r.data.None? && r.error.None?
    ensures Coherent(r)
  {
    ScanState(true, None, None)
  }

  /** The settlement of `handleAnalyze`: the analysis on success, the
      error's message (or a generic one when it is empty) on failure, and
      the loading flag cleared either way. */
  function FinishScan(st: ScanState, outcome: Result<MarketAnalysis, string>): (r: ScanState)
    ensures !r.loading
    ensures outcome.Ok? ==> r.data == Some(outcome.value) && r.error == st.error
    ensures outcome.Err? ==> r.data == st.data && r.error.Some? && r.error.value != ""
    ensures outcome.Err? && outcome.error != "" ==> r.error == Some(outcome.error)
  {
    match outcome
    case Ok(a) => st.(loading := false, data := Some(a))
    case Err(m) => st.(loading := false, error := Some(if m == "" then FallbackMessage else m))
  }

  /** Settling a scan that was started keeps the page coherent. */
  lemma {:induction false} FinishKeepsCoherent(st: ScanState, outcome: Result<MarketAnalysis, string>)
    requires Coherent(st) && st.loading
    ensures Coherent(FinishScan(st, outcome))
  {
  }

  /** A whole scan: start, call the service, settle. */
  function HandleAnalyze(st: ScanState, call: Result<ModelResponse, string>, parse: string -> Option<Json>): (r: ScanState)
    ensures Coherent(r) && !r.loading
    ensures r.data.Some? <==> AnalyzeMarket(call, parse).Ok?
    ensures r.error.Some? <==> AnalyzeMarket(call, parse).Err?
    ensures AnalyzeMarket(call, parse).Ok? ==> r.data == Some(AnalyzeMarket(call, parse).value)
  {
    FinishScan(StartScan(st), AnalyzeMarket(call, parse))
  }

  /** A failed scan shows no analysis, not even the previous one, and shows
      the service's own message: the shell's generic fallback is never
      used, because the service never throws an empty message. */
  lemma {:induction false} FailedScanShowsServiceMessage(st: ScanState, call: Result<ModelResponse, string>, parse: string -> Option<Json>)
    requires AnalyzeMarket(call, parse).Err?
    ensures HandleAnalyze(st, call, parse).data.None?
    ensures HandleAnalyze(st, call, parse).error == Some(AnalyzeMarket(call, parse).error)
  {
  }

  /** A reply without a JSON span ends in the "no structured data" banner. */
  lemma {:induction false} NoSpanBanner(st: ScanState, resp: ModelResponse, parse: string -> Option<Json>)
    requires JsonCandidate(resp.text).None?
    ensures HandleAnalyze(st, Ok(resp), parse).error == Some(NoStructuredDataMessage)
  {
    NoSpanMessage(resp, parse);
  }
}
