/**
 * The purchase flow behind the two "buy" buttons: make sure the Razorpay
 * checkout SDK is on the page, ask the store's server to create an order,
 * open the hosted checkout widget with that order, and, when the widget
 * calls back, ask the server to verify the payment and report the outcome.
 *
 * Everything outside the page script is an input: whether the SDK global
 * already exists and whether its script loads, the clock reading in the
 * receipt, the order server's reply, and what the widget and the
 * verification server do. The run is the list of effects it has.
 */
module Checkout {
  import opened Wrappers

  const PriceInr: nat := 39
  const AmountPaise: nat := PriceInr * 100
  const Currency: string := "INR"
  const ReceiptPrefix: string := "AIWB_"
  const ProductLabel: string := "AI Wealth Blueprint (eBook)"
  const SdkUrl: string := "https://checkout.razorpay.com/v1/checkout.js"
  const FallbackKey: string := "rzp_test_YOUR_KEY"
  const WidgetName: string := "AI Wealth Blueprint"
  const WidgetDescription: string := "365-day eBook + Templates"
  const ThemeColor: string := "#211C84"
  const ThankYouPath: string := "/thankyou"

  /** The JSON body posted to `/create_order`. */
  datatype OrderRequest = OrderRequest(amount: nat, currency: string, receipt: string, product: string)

  /** The parsed reply of `/create_order`; either field may be absent. */
  datatype OrderData = OrderData(orderId: Option<string>, key: Option<string>)

  /** The configuration handed to the checkout widget (its callback is the `WidgetEvent` input). */
  datatype WidgetOptions = WidgetOptions(
    key: string, amount: nat, currency: string, name: string, description: string,
    orderId: Option<string>, prefillName: string, prefillEmail: string, themeColor: string)

  /** What the widget passes to its callback, forwarded verbatim to `/verify_payment`. */
  datatype Payload = Payload(paymentId: string, orderId: string, signature: string)

  datatype Notice = GatewayError | PaymentSucceeded | VerificationFailed

  /** Everything the flow does that is visible outside the script. */
  datatype Effect =
    | AppendScript(src: string)
    | PostOrder(body: OrderRequest)
    | OpenWidget(options: WidgetOptions)
    | PostVerify(payload: Payload)
    | Alert(notice: Notice)
    | Navigate(path: string)

  /**
   * The reply of `/create_order`: a failure status, a body that is not JSON,
   * or parsed JSON. A JSON `null` body makes reading `data.key` throw inside
   * the `try`, so it runs as `Unparsable` does.
   */
  datatype OrderReply = NotOk | Unparsable | Parsed(data: OrderData)

  /**
   * The reply of `/verify_payment`: unreadable (the request failed, the
   * body is not JSON, or, with an ok status, the body is JSON `null`, so
   * reading `success` throws), or the status's `ok` flag and the truth of
   * `success`.
   */
  datatype VerifyReply = Unreadable | Reply(ok: bool, success: bool)

  /** What the widget does once open: never call back, or call back and get a verification reply. */
  datatype WidgetEvent = NoCallback | Callback(payload: Payload, reply: VerifyReply)

  /** The outside world for one click on a buy button. */
  datatype Env = Env(
    sdkPresent: bool, scriptLoads: bool, stamp: string, order: OrderReply, widget: WidgetEvent)

  /** Why the guarded part of the flow stopped; every reason leads to the same notice. */
  datatype Failure = LoadError | OrderError | MalformedOrder

  /** The effects of one stage, and its value or the reason it failed. */
  datatype Stage<+T> = Stage(effects: seq<Effect>, outcome: Result<T, Failure>)

  /** The text shown for each notice. */
  function Message(n: Notice): (text: string)
    ensures |text| > 0
  {
    match n
    case GatewayError => "Could not open payment gateway. See console for details."
    case PaymentSucceeded => "Payment successful! Check your email for download link."
    case VerificationFailed => "Payment verification failed. Contact support."
  }

  /** The three notices show three different texts, so each outcome is told apart on screen. */
  lemma MessagesDistinct(m: Notice, n: Notice)
    requires m != n
    ensures Message(m) != Message(n)
  {
  }

  /**
   * `loadRazorpayScript`: nothing to do when the SDK global exists; otherwise
   * append one script element and succeed or fail with its load.
   */
  function LoadRazorpayScript(sdkPresent: bool, scriptLoads: bool): (s: Stage<()>)
    ensures sdkPresent ==> s.effects == [] && s.outcome.Ok?
    ensures !sdkPresent ==> s.effects == [AppendScript(SdkUrl)]
    ensures s.outcome.Ok? <==> sdkPresent || scriptLoads
    ensures s.outcome.Err? ==> s.outcome.error == LoadError
  {
    if sdkPresent then Stage([], Ok(()))
    else Stage([AppendScript(SdkUrl)], if scriptLoads then Ok(()) else Err(LoadError))
  }

  /** The order request for one attempt; `stamp` is the clock reading as text. */
  function OrderBody(stamp: string): (b: OrderRequest)
    ensures b.amount == 3900 && b.currency == "INR"
    ensures b.product == "AI Wealth Blueprint (eBook)"
    ensures |b.receipt| == 5 + |stamp| && b.receipt[..5] == "AIWB_" && b.receipt[5..] == stamp
  {
    OrderRequest(AmountPaise, Currency, ReceiptPrefix + stamp, ProductLabel)
  }

  /**
   * `createOrderOnServer`: one POST, then a failure on a non-ok status or
   * a body that does not parse, and the parsed data otherwise.
   */
  function CreateOrderOnServer(stamp: string, reply: OrderReply): (s: Stage<OrderData>)
    ensures s.effects == [PostOrder(OrderBody(stamp))]
    ensures s.outcome.Ok? <==> reply.Parsed?
    ensures reply.Parsed? ==> s.outcome.value == reply.data
    ensures reply == NotOk ==> s.outcome == Err(OrderError)
  {
    match reply
    case NotOk => Stage([PostOrder(OrderBody(stamp))], Err(OrderError))
    case Unparsable => Stage([PostOrder(OrderBody(stamp))], Err(MalformedOrder))
    case Parsed(data) => Stage([PostOrder(OrderBody(stamp))], Ok(data))
  }

  /** `data.key || 'rzp_test_YOUR_KEY'`: a missing, null or empty key falls back. */
  function KeyOrFallback(key: Option<string>): (k: string)
    ensures k != ""
    ensures key.Some? && key.value != "" ==> k == key.value
    ensures key == None || key == Some("") ==> k == FallbackKey
  {
    if key.Some? && key.value != "" then key.value else FallbackKey
  }

  /** The widget configuration built from the order server's reply. */
  function CheckoutOptions(data: OrderData): (o: WidgetOptions)
    ensures o.key == KeyOrFallback(data.key) && o.key != ""
    ensures o.orderId == data.orderId
    ensures o.amount == 3900 && o.currency == "INR"
    ensures o.name == "AI Wealth Blueprint" && o.description == "365-day eBook + Templates"
  {
    WidgetOptions(KeyOrFallback(data.key), AmountPaise, Currency, WidgetName, WidgetDescription,
      data.orderId, "", "", ThemeColor)
  }

  /**
   * The widget's `handler`: post the payload for verification, then announce
   * success and go to the thank-you page only if the status is ok and the
   * body says success. An unreadable reply rejects the handler's promise
   * outside any `try`, so nothing more is shown.
   */
  function Handler(event: WidgetEvent): (effects: seq<Effect>)
    ensures event == NoCallback <==> effects == []
    ensures event.Callback? ==> effects[0] == PostVerify(event.payload)
    ensures Navigate(ThankYouPath) in effects <==>
      event.Callback? && event.reply == Reply(true, true)
  {
    match event
    case NoCallback => []
    case Callback(payload, Unreadable) => [PostVerify(payload)]
    case Callback(payload, Reply(ok, success)) =>
      if ok && success then [PostVerify(payload), Alert(PaymentSucceeded), Navigate(ThankYouPath)]
      else [PostVerify(payload), Alert(VerificationFailed)]
  }

  /**
   * `openCheckout`: load the SDK, create the order, open the widget; a
   * failure in the first two stages is caught and shown as the one generic
   * notice. The widget's callback (if it comes) runs the handler afterwards.
   */
  function OpenCheckout(env: Env): (log: seq<Effect>)
    ensures Alert(GatewayError) in log <==> !WidgetOpens(env)
  {
    var load := LoadRazorpayScript(env.sdkPresent, env.scriptLoads);
    if load.outcome.Err? then
      load.effects + [Alert(GatewayError)]
    else
      var order := CreateOrderOnServer(env.stamp, env.order);
      if order.outcome.Err? then
        load.effects + order.effects + [Alert(GatewayError)]
      else
        load.effects + order.effects + [OpenWidget(CheckoutOptions(order.outcome.value))]
        + Handler(env.widget)
  }

  /** The SDK is usable: it was already there or its script loaded. */
  predicate SdkReady(env: Env) {
    env.sdkPresent || env.scriptLoads
  }

  /** The run reaches the widget: SDK ready and the order reply parsed. */
  predicate WidgetOpens(env: Env) {
    SdkReady(env) && env.order.Parsed?
  }

  /** The run ends in a verified payment. */
  predicate Verified(env: Env) {
    WidgetOpens(env) && env.widget.Callback? && env.widget.reply == Reply(true, true)
  }

  /** Position of each kind of effect in the pipeline. */
  function Rank(e: Effect): nat {
    match e
    case AppendScript(_) => 0
    case PostOrder(_) => 1
    case OpenWidget(_) => 2
    case PostVerify(_) => 3
    case Alert(_) => 4
    case Navigate(_) => 5
  }

  /** Effects follow the pipeline's order: each one ranks above the one before it. */
  predicate InPipelineOrder(log: seq<Effect>) {
    forall k :: 0 < k < |log| ==> Rank(log[k - 1]) < Rank(log[k])
  }

  /** What the loader puts on the page: nothing, or one script element. */
  function ScriptEffects(env: Env): (effects: seq<Effect>)
    ensures |effects| <= 1
  {
    if env.sdkPresent then [] else [AppendScript(SdkUrl)]
  }

  /** The log of a run in each of its three shapes: stopped at the loader, at the order, or past the widget. */
  lemma LogCases(env: Env)
    ensures !SdkReady(env) ==> OpenCheckout(env) == [AppendScript(SdkUrl), Alert(GatewayError)]
    ensures SdkReady(env) && !env.order.Parsed? ==>
      OpenCheckout(env) == ScriptEffects(env) + [PostOrder(OrderBody(env.stamp)), Alert(GatewayError)]
    ensures WidgetOpens(env) ==>
      OpenCheckout(env) == ScriptEffects(env)
        + [PostOrder(OrderBody(env.stamp)), OpenWidget(CheckoutOptions(env.order.data))]
        + Handler(env.widget)
  {
  }

  /** In an ordered log every effect ranks above all those before it. */
  lemma {:induction false} OrderedIsStrict(log: seq<Effect>, i: nat, j: nat)
    requires InPipelineOrder(log) && i < j < |log|
    ensures Rank(log[i]) < Rank(log[j])
    decreases j - i
  {
    if i + 1 < j {
      OrderedIsStrict(log, i + 1, j);
    }
  }

  /**
   * Every run has its stages in order: the script before the order, the
   * order before the widget, the widget before verification, one notice at
   * most and navigation last.
   */
  lemma EffectsInPipelineOrder(env: Env)
    ensures InPipelineOrder(OpenCheckout(env))
  {
    LogCases(env);
  }

  /** A log in pipeline order holds each effect at most once. */
  lemma {:induction false} OrderedHasNoRepeats(log: seq<Effect>, e: Effect)
    requires InPipelineOrder(log)
    ensures multiset(log)[e] == if e in log then 1 else 0
  {
    if log != [] {
      assert log == [log[0]] + log[1..];
      OrderedHasNoRepeats(log[1..], e);
      if log[0] == e {
        forall k | 0 <= k < |log[1..]| ensures log[1..][k] != e {
          OrderedIsStrict(log, 0, k + 1);
        }
      }
    }
  }

  /** The loader appends the SDK script exactly once when the global is absent, and never otherwise. */
  lemma ScriptAppendedOnlyWhenAbsent(env: Env)
    ensures multiset(OpenCheckout(env))[AppendScript(SdkUrl)] == if env.sdkPresent then 0 else 1
  {
    LogCases(env);
    EffectsInPipelineOrder(env);
    OrderedHasNoRepeats(OpenCheckout(env), AppendScript(SdkUrl));
  }

  /**
   * An order is posted only once the SDK is ready; with the global already
   * present it is the first thing the run does.
   */
  lemma OrderPostedOnlyWhenSdkReady(env: Env)
    ensures (exists e :: e in OpenCheckout(env) && e.PostOrder?) <==> SdkReady(env)
    ensures env.sdkPresent ==> OpenCheckout(env)[0] == PostOrder(OrderBody(env.stamp))
  {
    LogCases(env);
    if SdkReady(env) {
      assert OpenCheckout(env)[|ScriptEffects(env)|].PostOrder?;
    }
  }

  /**
   * If the SDK fails to load or the order server fails, the widget is never
   * opened, nothing is verified, nobody is sent anywhere, and the run ends
   * with the single generic notice.
   */
  lemma EarlyFailureOnlyAlerts(env: Env)
    requires !WidgetOpens(env)
    ensures var log := OpenCheckout(env);
      |log| > 0 && log[|log| - 1] == Alert(GatewayError)
      && (forall k :: 0 <= k < |log| - 1 ==> !log[k].Alert?)
      && (forall e :: e in log ==> !e.OpenWidget? && !e.PostVerify? && !e.Navigate?)
  {
  }

  /** Once the SDK is ready, the order server receives the fixed amount, currency, receipt prefix and product. */
  lemma OrderPostedWithFixedBody(env: Env)
    requires SdkReady(env)
    ensures PostOrder(OrderRequest(3900, "INR", "AIWB_" + env.stamp, "AI Wealth Blueprint (eBook)"))
      in OpenCheckout(env)
  {
    assert OrderBody(env.stamp).receipt == "AIWB_" + env.stamp;
  }

  /**
   * The widget is opened exactly when the SDK is ready and the order reply
   * parsed, with the order id as returned and the returned key or the
   * fallback key.
   */
  lemma WidgetOpenedWithOrder(env: Env)
    ensures (exists e :: e in OpenCheckout(env) && e.OpenWidget?) <==> WidgetOpens(env)
    ensures WidgetOpens(env) ==>
      var o := CheckoutOptions(env.order.data);
      OpenWidget(o) in OpenCheckout(env)
      && o.orderId == env.order.data.orderId
      && o.key == (if env.order.data.key.Some? && env.order.data.key.value != ""
                   then env.order.data.key.value else "rzp_test_YOUR_KEY")
  {
    if WidgetOpens(env) {
      var log := OpenCheckout(env);
      var at := |LoadRazorpayScript(env.sdkPresent, env.scriptLoads).effects| + 1;
      assert log[at] == OpenWidget(CheckoutOptions(env.order.data));
    }
  }

  /**
   * Navigation to the thank-you page happens exactly once when the status
   * is ok and the body says success, and never otherwise.
   */
  lemma NavigatesOnlyWhenVerified(env: Env)
    ensures multiset(OpenCheckout(env))[Navigate(ThankYouPath)] == if Verified(env) then 1 else 0
  {
    var log := OpenCheckout(env);
    LogCases(env);
    EffectsInPipelineOrder(env);
    OrderedHasNoRepeats(log, Navigate(ThankYouPath));
    if WidgetOpens(env) {
      var head := ScriptEffects(env)
        + [PostOrder(OrderBody(env.stamp)), OpenWidget(CheckoutOptions(env.order.data))];
      assert log == head + Handler(env.widget);
      assert Navigate(ThankYouPath) !in head;
    }
  }

  /** A verified payment ends the run with the success notice followed by the navigation. */
  lemma SuccessNoticeThenNavigation(env: Env)
    requires Verified(env)
    ensures var log := OpenCheckout(env);
      |log| >= 2 && log[|log| - 2..] == [Alert(PaymentSucceeded), Navigate(ThankYouPath)]
  {
    LogCases(env);
  }

  /** The only destination the flow ever navigates to is the thank-you page. */
  lemma OnlyThankYouNavigation(env: Env)
    ensures forall e :: e in OpenCheckout(env) && e.Navigate? ==> e == Navigate(ThankYouPath)
  {
    LogCases(env);
  }

  /**
   * Once the widget calls back with a readable verification reply, any
   * combination other than an ok status with `success` ends in the single
   * "contact support" notice and no navigation.
   */
  lemma VerificationFailureAlertsSupport(env: Env)
    requires WidgetOpens(env) && env.widget.Callback? && env.widget.reply.Reply?
    requires !(env.widget.reply.ok && env.widget.reply.success)
    ensures var log := OpenCheckout(env);
      |log| >= 2 && log[|log| - 2..] == [PostVerify(env.widget.payload), Alert(VerificationFailed)]
      && Navigate(ThankYouPath) !in log
      && (forall k :: 0 <= k < |log| - 1 ==> !log[k].Alert?)
  {
  }

  /**
   * A verification request that fails or returns a body that is not JSON
   * shows nothing: the run ends with the request itself.
   */
  lemma UnreadableVerificationIsSilent(env: Env)
    requires WidgetOpens(env) && env.widget.Callback? && env.widget.reply == Unreadable
    ensures var log := OpenCheckout(env);
      |log| > 0 && log[|log| - 1] == PostVerify(env.widget.payload)
      && (forall e :: e in log ==> !e.Alert? && !e.Navigate?)
  {
  }

  /** An order server answering HTTP 500 while the SDK is present: one POST and the generic notice. */
  lemma OrderServerErrorScenario(stamp: string, widget: WidgetEvent)
    ensures OpenCheckout(Env(true, false, stamp, NotOk, widget))
      == [PostOrder(OrderBody(stamp)), Alert(GatewayError)]
  {
  }

  /** A widget callback verified by the server: success notice and one navigation, after the script load. */
  lemma VerifiedPaymentScenario(stamp: string, data: OrderData)
    ensures var p := Payload("p1", "o1", "s1");
      OpenCheckout(Env(false, true, stamp, Parsed(data), Callback(p, Reply(true, true))))
      == [AppendScript(SdkUrl), PostOrder(OrderBody(stamp)), OpenWidget(CheckoutOptions(data)),
          PostVerify(p), Alert(PaymentSucceeded), Navigate(ThankYouPath)]
  {
  }
}
