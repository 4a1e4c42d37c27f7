# Storefront page behaviour, modelled in Dafny

`script.js` drives a one-page storefront for the "AI Wealth Blueprint" eBook.
Under its DOM and network glue sit three small state machines, and this
project models those three:

- **Reviews slider** (`slider.dfy`, module `ReviewSlider`). One index `idx`
  moves round a ring of `total` review cards. The next button and the
  auto-scroll timer step forward. The previous button steps back. Hover
  pauses and resumes the timer, and a resize only redraws. The index
  formulas are functions (`NextIndex`, `PrevIndex`). The slider is a class
  `Slider` whose methods update `idx` and `autoScrolling` in place, the way
  the event handlers update their captured variables.
- **FAQ accordion** (`accordion.dfy`, module `FaqAccordion`). Each answer
  panel's `max-height` is a `MaxHeight`: never set, or a pixel length. A
  click closes every other answer, then toggles its own. `Click` runs that
  loop in place over an `array<MaxHeight>` and is proved equal to the
  specification function `Clicked`. The lemmas prove what `Clicked` promises.
- **Checkout flow** (`checkout.dfy`, module `Checkout`). `openCheckout`
  loads the Razorpay SDK, posts an order to `/create_order` and opens the
  checkout widget. The widget's callback then posts the payment to
  `/verify_payment` and reports the outcome. Everything outside the script
  is an input (`Env`): whether the SDK global exists, whether its script
  loads, the clock text in the receipt, the order server's reply, and what
  the widget and the verification server do. A run is the list of `Effect`s
  it produces: script appended, order posted, widget opened, verification
  posted, alert shown, navigation. Each stage is a function returning its
  effects and a `Result`, the way a `throw` ends the `try` block.
- `wrappers.dfy` (module `Wrappers`) holds `Option` and `Result`.

Where the code and the design description of the flow disagree, the model
follows the code:

- There is no re-entrancy guard. Both buy buttons call `openCheckout`
  directly (script.js:125-126).
- There is no single-in-flight loader. Each run that finds no SDK global
  appends its own script element (script.js:74-79).
- A parsed order reply that lacks `orderId` is not rejected. The absent id
  goes to the widget unchanged (script.js:93).
- A verification request that fails, or returns a body that is not JSON,
  shows no notice. The handler runs outside the `try` block, so its promise
  rejects unhandled (script.js:94-102). `UnreadableVerificationIsSilent`
  states this.

## Model

| member | source | states |
|---|---|---|
| ReviewSlider.NextIndex | script.js:22 | the next card is always a valid index; it is the following card, wrapping from the last to 0 |
| ReviewSlider.PrevIndex | script.js:23 | the previous card is always a valid index; it is the preceding card, wrapping from 0 to the last |
| ReviewSlider.PrevUndoesNext | script.js:22-23 | a previous click after a next click returns to the original card |
| ReviewSlider.NextUndoesPrev | script.js:22-23 | a next click after a previous click returns to the original card |
| ReviewSlider.Advance | script.js:22-26 | any number of next clicks and auto ticks from a valid card stays within the cards |
| ReviewSlider.Retreat | script.js:23 | any number of previous clicks from a valid card stays within the cards |
| ReviewSlider.AdvanceIsModular | script.js:22-26 | k forward steps from card idx land on (idx + k) mod total |
| ReviewSlider.AdvanceFullCycle | script.js:22-26 | total forward steps bring the slider back to its starting card |
| ReviewSlider.RetreatUndoesAdvance | script.js:22-23 | k previous clicks undo k forward steps |
| ReviewSlider.Slider.constructor | script.js:14-28 | mounting with at least one card starts on card 0 with auto-scroll running |
| ReviewSlider.Slider.Next | script.js:22 | the next button moves to the next card, keeps the index valid, and redraws that card |
| ReviewSlider.Slider.Prev | script.js:23 | the previous button moves to the previous card, keeps the index valid, and redraws that card |
| ReviewSlider.Slider.AutoTick | script.js:24 | a tick of the running interval moves to the next card and keeps the index valid |
| ReviewSlider.Slider.Hover | script.js:25-26 | entering pauses auto-scroll, leaving resumes it, and the card does not change |
| ReviewSlider.Slider.Resize | script.js:27 | a resize redraws the current card and changes nothing |
| FaqAccordion.Toggled | script.js:39-43 | an open panel closes to 0; a closed one gets its content height |
| FaqAccordion.Clicked | script.js:33-44 | a click keeps the number of panels |
| FaqAccordion.OnlyOneCanBeOpen | script.js:38-43 | with every panel but one closed, at most that one panel is open |
| FaqAccordion.NoneOpen | script.js:38 | panels that are all closed count no open panel |
| FaqAccordion.ClickClosesOthers | script.js:38 | after a click whose target exists, every panel other than the target holds 0 |
| FaqAccordion.AtMostOneOpenAfterClick | script.js:38-43 | after a click whose target exists, at most one panel is open; exactly one iff the target panel was closed and has content |
| FaqAccordion.ClickKeepsAtMostOneOpen | script.js:32-45 | no click ever leaves two panels open once at most one was open |
| FaqAccordion.ClickOnOpenCloses | script.js:39-40 | clicking an open panel closes it, leaving no panel open |
| FaqAccordion.ClickOnClosedOpens | script.js:39-43 | clicking a closed panel, never set or set to 0, sets it to its content height |
| FaqAccordion.ClickTwiceClosesAll | script.js:39-43 | opening a closed answer and clicking it again leaves every panel closed |
| FaqAccordion.MissingTargetChangesNothing | script.js:34-36 | a click whose data-target names no element leaves every panel unchanged |
| FaqAccordion.Click | script.js:33-44 | the in-place handler loop leaves the panels exactly as the click specification says |
| Checkout.Message | script.js:104-121 | each notice has a non-empty text |
| Checkout.MessagesDistinct | script.js:104-121 | the success, contact-support and gateway-error notices show three different texts |
| Checkout.LoadRazorpayScript | script.js:72-81 | with the SDK global present, the loader succeeds with no effect; otherwise it appends one script and succeeds iff the script loads |
| Checkout.OrderBody | script.js:53-66 | the order carries 3900 paise, INR, a receipt "AIWB_" followed by the clock text, and the product label |
| Checkout.CreateOrderOnServer | script.js:56-70 | one order POST; failure on a non-ok status or an unparsable body, the parsed data otherwise |
| Checkout.KeyOrFallback | script.js:88 | the widget key is the returned key when it is non-empty, the test key otherwise, and never empty |
| Checkout.CheckoutOptions | script.js:87-116 | the widget gets the fallback-resolved key, the returned order id unchanged, 3900 paise, INR and the product name and description |
| Checkout.Handler | script.js:94-110 | without a callback nothing happens; a callback posts the payload first; navigation happens iff the status is ok and the body says success |
| Checkout.OpenCheckout | script.js:83-123 | the generic "could not open payment gateway" notice appears iff the run stops before the widget |
| Checkout.LogCases | script.js:83-123 | a run stops at the loader, stops at the order, or opens the widget and hands over to the callback, with exactly these effects |
| Checkout.OrderedIsStrict | script.js:83-123 | in a log in pipeline order each effect ranks above all earlier ones |
| Checkout.EffectsInPipelineOrder | script.js:83-123 | every run has its effects in the order script, order, widget, verification, notice, navigation |
| Checkout.OrderedHasNoRepeats | script.js:83-123 | a log in pipeline order holds each effect at most once |
| Checkout.ScriptAppendedOnlyWhenAbsent | script.js:74-79 | the SDK script is appended exactly once when the global is absent and never when it is present |
| Checkout.OrderPostedOnlyWhenSdkReady | script.js:84-86 | an order is posted iff the SDK is ready; with the global present the order POST comes first |
| Checkout.EarlyFailureOnlyAlerts | script.js:84-122 | if the SDK fails to load or the order fails, no widget, no verification and no navigation; the run ends with the one generic notice |
| Checkout.OrderPostedWithFixedBody | script.js:53-66 | once the SDK is ready the server receives amount 3900, INR, receipt "AIWB_" + clock, product "AI Wealth Blueprint (eBook)" |
| Checkout.WidgetOpenedWithOrder | script.js:86-118 | the widget opens iff the SDK is ready and the order reply parsed, with the returned order id and the returned or fallback key |
| Checkout.NavigatesOnlyWhenVerified | script.js:103-109 | navigation to /thankyou happens exactly once when the status is ok and the body says success, and never otherwise |
| Checkout.SuccessNoticeThenNavigation | script.js:103-106 | a verified payment ends with the success notice followed by the navigation |
| Checkout.OnlyThankYouNavigation | script.js:106 | the flow never navigates anywhere but /thankyou |
| Checkout.VerificationFailureAlertsSupport | script.js:107-109 | any readable reply other than ok with success ends with the single "contact support" notice and no navigation |
| Checkout.UnreadableVerificationIsSilent | script.js:94-102 | a verification that fails or is not JSON ends the run with the request itself: no notice, no navigation |
| Checkout.OrderServerErrorScenario | script.js:68 | SDK present and an HTTP 500 from the order server: one order POST, then the generic notice |
| Checkout.VerifiedPaymentScenario | script.js:83-110 | a fresh load, a parsed order and a verified callback give script, order, widget, verification, success notice and navigation, in that order |

## Left out

- Layout: the pixel offset from the first card's `offsetWidth`, the transform and transition strings, and CSS normalisation. The one exception is `'0'` reading back as `0px`, folded into `Px(0)`.
- Timers: interval handles and timing. A tick is an event that only occurs while auto-scroll is on.
- ReviewSlider.Slider.Hover: a second `mouseleave` without a `mouseenter` starts a second interval. The model keeps one flag, so it does not capture the doubled tick rate.
- ReviewSlider.Slider.Hover: after that second `mouseleave`, the first interval's handle is overwritten and `clearInterval` never stops that interval. Hovering then no longer pauses the slider, while the model's `Hover(true)` stops auto-scroll.
- ReviewSlider.Slider.constructor: a page without the reviews container creates no slider. The constructor requires at least one card: with none, `show(0)` throws (script.js:18, reached from script.js:28).
- That throw escapes the page's load handler. The FAQ handlers (script.js:32-45) and both buy buttons (script.js:125-126) are then never attached. The accordion and checkout models assume their handlers are attached.
- FAQ: locating buttons and reading `data-target` are not modelled. A target that names an element outside the answer panels closes every panel (`Elsewhere`). That element's own toggle is not tracked.
- Network and JSON: `fetch`, serialisation and HTTP are inputs (`OrderReply`, `VerifyReply`). A script load or request that never settles cannot be expressed: every input stage settles. Key values that are JSON non-strings (numbers, booleans) are not modelled. A key is absent or a string.
- The Razorpay SDK: its constructor, `open()`, and when or whether the callback fires are inputs (`WidgetEvent`). A constructor that throws is not modelled.
- Platform effects: the clock is the `stamp` text after the `AIWB_` prefix. `console.error` is not in the effect log. Alerts and navigation are log entries only.
- Concurrency: two clicks on the buy buttons start two independent runs whose effects can interleave. The model covers one run at a time.
