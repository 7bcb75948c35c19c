/** PaymentService: the plan and payment-method tables, the payment-details
    validator, the simplified CPF check, and the subscription, invoice and
    plan-change records it builds. Money is in integer centavos. */
module PaymentService {
  import opened Common

  datatype Interval = Month | Year

  /** A subscription plan (its feature and limitation texts are not modelled). */
  datatype Plan = Plan(
    id: string,
    name: string,
    priceCents: nat,
    regularPriceCents: Option<nat>,
    interval: Interval,
    mostPopular: bool)

  datatype PaymentMethod = PaymentMethod(id: string, name: string, enabled: bool)

  /** The fields validatePaymentDetails destructures; an absent one is `None`. */
  datatype PaymentDetails = PaymentDetails(
    methodId: Option<string>,
    cardNumber: Option<string>,
    cardExpiry: Option<string>,
    cardCvv: Option<string>,
    cardHolder: Option<string>,
    documentNumber: Option<string>)

  // ---- the tables -----------------------------------------------------------

  function PlanEntry(i: nat): Plan
    requires i < 6
  {
    if i == 0 then Plan("basic", "Plano Básico", 2990, None, Month, false)
    else if i == 1 then Plan("standard", "Plano Padrão", 4990, None, Month, true)
    else if i == 2 then Plan("premium", "Plano Premium", 7990, None, Month, false)
    else if i == 3 then Plan("annual-basic", "Plano Básico Anual", 29900, Some(35880), Year, false)
    else if i == 4 then Plan("annual-standard", "Plano Padrão Anual", 49900, Some(59880), Year, true)
    else Plan("annual-premium", "Plano Premium Anual", 79900, Some(95880), Year, false)
  }

  /** The six plans, in declaration order. */
  function Plans(): (r: seq<Plan>)
    ensures |r| == 6
  {
    seq(6, i requires 0 <= i < 6 => PlanEntry(i))
  }

  /** The five payment methods, all enabled. */
  function PaymentMethods(): (r: seq<PaymentMethod>)
    ensures |r| == 5
  {
    [PaymentMethod("credit-card", "Cartão de Crédito", true),
     PaymentMethod("debit-card", "Cartão de Débito", true),
     PaymentMethod("pix", "PIX", true),
     PaymentMethod("boleto", "Boleto Bancário", true),
     PaymentMethod("paypal", "PayPal", true)]
  }

  /** Plan ids are distinct, so a lookup by id is unambiguous. */
  lemma PlanIdsDistinct()
    ensures forall i, j :: 0 <= i < j < |Plans()| ==> Plans()[i].id != Plans()[j].id
  {
    var ps := Plans();
    forall i, j | 0 <= i < j < 6 ensures ps[i].id != ps[j].id {
      assert ps[i] == PlanEntry(i) && ps[j] == PlanEntry(j);
      assert ps[i].id[|ps[i].id| - 1] != ps[j].id[|ps[j].id| - 1] || |ps[i].id| != |ps[j].id|;
    }
  }

  /** Each annual plan's regular price is twelve months of its monthly plan,
      and the annual price saves about 17% (between 16.5% and 17.5%) of it. */
  lemma AnnualPlansPricing()
    ensures forall i :: 3 <= i < 6 ==>
              Plans()[i].interval == Year && Plans()[i].regularPriceCents == Some(12 * Plans()[i - 3].priceCents)
    ensures forall i :: 3 <= i < 6 ==>
              var regular, price := 12 * Plans()[i - 3].priceCents, Plans()[i].priceCents;
              165 * regular <= 1000 * (regular - price) < 175 * regular
  {
    var ps := Plans();
    assert ps[0] == PlanEntry(0) && ps[1] == PlanEntry(1) && ps[2] == PlanEntry(2);
    assert ps[3] == PlanEntry(3) && ps[4] == PlanEntry(4) && ps[5] == PlanEntry(5);
  }

  // ---- lookups --------------------------------------------------------------

  /** getSubscriptionPlan: the first plan with the id, if any. */
  function GetSubscriptionPlan(planId: string): (r: Option<Plan>)
    ensures r.None? <==> forall i :: 0 <= i < |Plans()| ==> Plans()[i].id != planId
    ensures r.Some? ==> r.value in Plans() && r.value.id == planId
  {
    Find(Plans(), (p: Plan) => p.id == planId)
  }

  /** A plan of the table is found by its own id. */
  lemma PlanFoundById(i: nat)
    requires i < |Plans()|
    ensures GetSubscriptionPlan(Plans()[i].id) == Some(Plans()[i])
  {
    PlanIdsDistinct();
    var r := GetSubscriptionPlan(Plans()[i].id);
    var k :| 0 <= k < |Plans()| && Plans()[k] == r.value;
    assert Plans()[k].id == Plans()[i].id;
  }

  predicate Enabled(m: PaymentMethod) {
    m.enabled
  }

  /** getPaymentMethods: the enabled methods, in order. */
  function GetPaymentMethods(): (r: seq<PaymentMethod>)
    ensures forall m :: m in r <==> m in PaymentMethods() && m.enabled
    ensures IsSubsequence(r, PaymentMethods())
  {
    FilterIsSubsequence(PaymentMethods(), Enabled);
    Filter(PaymentMethods(), Enabled)
  }

  /** Every method is enabled, so all five are offered. */
  lemma AllMethodsOffered()
    ensures GetPaymentMethods() == PaymentMethods()
  {
  }

  // ---- validation -----------------------------------------------------------

  /** A value that is present and not the empty string. */
  predicate Truthy(s: Option<string>) {
    s.Some? && s.value != ""
  }

  /** `${x}` for an optional string. */
  function Show(s: Option<string>): string {
    if s.Some? then s.value else "undefined"
  }

  predicate AllDigits(s: string) {
    forall i :: 0 <= i < |s| ==> IsDigit(s[i])
  }

  /** `/^\d{2}\/\d{2}$/`: two digits, a slash, two digits. */
  predicate ExpiryShape(s: string) {
    |s| == 5 && AllDigits(s[..2]) && s[2] == '/' && AllDigits(s[3..])
  }

  /** `/^\d{3,4}$/`: three or four digits. */
  predicate CvvShape(s: string) {
    (|s| == 3 || |s| == 4) && AllDigits(s)
  }

  /** A card number of 13 to 19 characters. */
  predicate CardNumberShape(s: Option<string>) {
    s.Some? && 13 <= |s.value| <= 19
  }

  /** A holder name of at least 3 characters. */
  predicate HolderShape(s: Option<string>) {
    s.Some? && |s.value| >= 3
  }

  predicate IsCardMethod(methodId: Option<string>) {
    methodId == Some("credit-card") || methodId == Some("debit-card")
  }

  /** Every character of `s` equals its first one. */
  predicate AllSame(s: string) {
    forall i :: 0 <= i < |s| ==> s[i] == s[0]
  }

  /** isValidCPF: drop every non-digit; then exactly 11 digits must remain,
      not all of them the same. */
  function IsValidCPF(cpf: string): (r: bool)
    ensures r <==> |Filter(cpf, IsDigit)| == 11 &&
                   exists i, j :: 0 <= i < j < |Filter(cpf, IsDigit)| &&
                                  Filter(cpf, IsDigit)[i] != Filter(cpf, IsDigit)[j]
  {
    var digits := Filter(cpf, IsDigit);
    if |digits| != 11 then false
    else if AllSame(digits) then
      assert forall i, j :: 0 <= i < j < |digits| ==> digits[i] == digits[0] == digits[j];
      false
    else
      var k :| 0 <= k < |digits| && digits[k] != digits[0];
      assert 0 < k && Filter(cpf, IsDigit)[0] != Filter(cpf, IsDigit)[k];
      true
  }

  /** Punctuation does not matter: a formatted number and its bare digits
      are judged alike. */
  lemma CPFIgnoresPunctuation(cpf: string)
    ensures IsValidCPF(cpf) == IsValidCPF(Filter(cpf, IsDigit))
  {
    var d := Filter(cpf, IsDigit);
    assert Filter(d, IsDigit) == d;
  }

  /** validatePaymentDetails: the method must be listed and enabled; card
      methods need a 13 to 19 character number, an `MM/YY` expiry, a 3 or 4
      digit CVV and a holder of at least 3 characters, checked in that order;
      pix and boleto need a document that passes isValidCPF. The first
      failing check decides the message. */
  function ValidatePaymentDetails(methods: seq<PaymentMethod>, d: PaymentDetails): (r: Result<bool>)
    ensures r.Ok? ==> r.value
  {
    var valid := Find(methods, (m: PaymentMethod) => Some(m.id) == d.methodId && m.enabled);
    if valid.None? then Err("Invalid or disabled payment method: " + Show(d.methodId))
    else if IsCardMethod(d.methodId) && !CardNumberShape(d.cardNumber) then
      Err("Invalid card number")
    else if IsCardMethod(d.methodId) && (!Truthy(d.cardExpiry) || !ExpiryShape(d.cardExpiry.value)) then
      Err("Invalid card expiry date (MM/YY format required)")
    else if IsCardMethod(d.methodId) && (!Truthy(d.cardCvv) || !CvvShape(d.cardCvv.value)) then
      Err("Invalid CVV code")
    else if IsCardMethod(d.methodId) && !HolderShape(d.cardHolder) then
      Err("Invalid card holder name")
    else if (d.methodId == Some("pix") || d.methodId == Some("boleto")) &&
            (!Truthy(d.documentNumber) || !IsValidCPF(d.documentNumber.value)) then
      Err("Invalid CPF number")
    else Ok(true)
  }

  /** The card fields a card method needs, stated field by field. */
  predicate CardFieldsOk(d: PaymentDetails) {
    && d.cardNumber.Some? && 13 <= |d.cardNumber.value| <= 19
    && d.cardExpiry.Some? && ExpiryShape(d.cardExpiry.value)
    && d.cardCvv.Some? && CvvShape(d.cardCvv.value)
    && d.cardHolder.Some? && 3 <= |d.cardHolder.value|
  }

  /** The details a method accepts, as a property of the details alone. */
  predicate Acceptable(methods: seq<PaymentMethod>, d: PaymentDetails) {
    && (exists i :: 0 <= i < |methods| && Some(methods[i].id) == d.methodId && methods[i].enabled)
    && (IsCardMethod(d.methodId) ==> CardFieldsOk(d))
    && (d.methodId == Some("pix") || d.methodId == Some("boleto") ==>
          d.documentNumber.Some? && IsValidCPF(d.documentNumber.value))
  }

  /** Validation succeeds exactly for acceptable details. */
  lemma ValidateAcceptsExactly(methods: seq<PaymentMethod>, d: PaymentDetails)
    ensures ValidatePaymentDetails(methods, d).Ok? <==> Acceptable(methods, d)
  {
    var valid := Find(methods, (m: PaymentMethod) => Some(m.id) == d.methodId && m.enabled);
    if valid.Some? {
      var k :| 0 <= k < |methods| && methods[k] == valid.value && Some(methods[k].id) == d.methodId && methods[k].enabled;
      assert d.cardExpiry.Some? && ExpiryShape(d.cardExpiry.value) ==> Truthy(d.cardExpiry);
      assert d.cardCvv.Some? && CvvShape(d.cardCvv.value) ==> Truthy(d.cardCvv);
    }
  }

  /** An unlisted or disabled method is rejected before anything else is
      looked at, naming the method. */
  lemma UnknownMethodRejected(methods: seq<PaymentMethod>, d: PaymentDetails)
    requires forall i :: 0 <= i < |methods| ==> !(Some(methods[i].id) == d.methodId && methods[i].enabled)
    ensures ValidatePaymentDetails(methods, d) == Err("Invalid or disabled payment method: " + Show(d.methodId))
  {
  }

  /** PayPal needs nothing but its place in the method list. */
  lemma PaypalNeedsOnlyTheMethod(d: PaymentDetails)
    requires d.methodId == Some("paypal")
    ensures ValidatePaymentDetails(PaymentMethods(), d) == Ok(true)
  {
    var ms := PaymentMethods();
    assert ms[4] == PaymentMethod("paypal", "PayPal", true);
    assert Find(ms, (m: PaymentMethod) => Some(m.id) == d.methodId && m.enabled).Some?;
    assert "paypal"[0] != "boleto"[0];
    assert !IsCardMethod(d.methodId) && d.methodId != Some("pix") && d.methodId != Some("boleto");
  }

  /** A card with a bad number is reported as such whatever its other fields hold. */
  lemma CardNumberCheckedFirst(d: PaymentDetails)
    requires d.methodId == Some("credit-card") || d.methodId == Some("debit-card")
    requires d.cardNumber.None? || !(13 <= |d.cardNumber.value| <= 19)
    ensures ValidatePaymentDetails(PaymentMethods(), d) == Err("Invalid card number")
  {
    var ms := PaymentMethods();
    var k := if d.methodId == Some("credit-card") then 0 else 1;
    assert Some(ms[k].id) == d.methodId && ms[k].enabled;
    assert Find(ms, (m: PaymentMethod) => Some(m.id) == d.methodId && m.enabled).Some?;
    assert IsCardMethod(d.methodId) && !CardNumberShape(d.cardNumber);
  }

  /** A well-formed credit card passes. */
  lemma CreditCardExample()
    ensures ValidatePaymentDetails(PaymentMethods(), PaymentDetails(Some("credit-card"),
              Some("4111111111111111"), Some("01/30"), Some("123"), Some("Jane Doe"), None)) == Ok(true)
  {
    var e := "01/30";
    assert e[..2] == "01" && e[3..] == "30";
    assert ExpiryShape(e) && CvvShape("123");
    CreditCardMethodFound();
  }

  /** The same card without a CVV fails on the CVV. */
  lemma CreditCardWithoutCvv()
    ensures ValidatePaymentDetails(PaymentMethods(), PaymentDetails(Some("credit-card"),
              Some("4111111111111111"), Some("01/30"), None, Some("Jane Doe"), None)) == Err("Invalid CVV code")
  {
    var e := "01/30";
    assert e[..2] == "01" && e[3..] == "30";
    assert ExpiryShape(e);
    CreditCardMethodFound();
  }

  /** The credit card method is listed and enabled. */
  lemma CreditCardMethodFound()
    ensures Find(PaymentMethods(), (m: PaymentMethod) => Some(m.id) == Some("credit-card") && m.enabled).Some?
  {
    var ms := PaymentMethods();
    assert ms[0].id == "credit-card" && ms[0].enabled;
  }

  // ---- subscription records -------------------------------------------------

  /** The subscription record, without its clock-derived dates. */
  datatype Subscription = Subscription(
    id: string,
    userId: string,
    planId: string,
    planName: string,
    priceCents: nat,
    interval: Interval,
    status: string,
    paymentMethod: Option<string>,
    lastFour: Option<string>,
    autoRenew: bool)

  /** The invoice record, without its clock-derived dates. */
  datatype Invoice = Invoice(
    id: string,
    subscriptionId: string,
    userId: string,
    amountCents: nat,
    status: string,
    paymentMethod: Option<string>,
    description: string)

  datatype SubscriptionReceipt = SubscriptionReceipt(
    subscription: Subscription, invoice: Invoice, success: bool, message: string)

  /** 'Mensal' for a monthly plan, 'Anual' otherwise. */
  function IntervalLabel(i: Interval): string {
    if i == Month then "Mensal" else "Anual"
  }

  /** processSubscription: an unknown plan fails first; then the details
      are validated; then the subscription and its paid invoice are built.
      The ids are generated from the clock by the service and are
      parameters here. */
  function ProcessSubscription(userId: string, planId: string, d: PaymentDetails, subscriptionId: string,
                               invoiceId: string): (r: Result<SubscriptionReceipt>)
    ensures GetSubscriptionPlan(planId).None? ==> r.Err?
    ensures r.Ok? ==> && r.value.success
                      && r.value.subscription.id == subscriptionId && r.value.invoice.id == invoiceId
                      && r.value.invoice.subscriptionId == subscriptionId
  {
    var plan := GetSubscriptionPlan(planId);
    if plan.None? then Err("Invalid plan ID: " + planId)
    else
      var v := ValidatePaymentDetails(PaymentMethods(), d);
      if v.Err? then Err(v.message)
      else
        var p := plan.value;
        var lastFour := if IsCardMethod(d.methodId) then Some(SliceLast(d.cardNumber.value, 4)) else None;
        var sub := Subscription(subscriptionId, userId, planId, p.name, p.priceCents, p.interval, "active",
                                d.methodId, lastFour, true);
        var inv := Invoice(invoiceId, sub.id, userId, p.priceCents, "paid", d.methodId,
                           "Assinatura " + p.name + " - " + IntervalLabel(p.interval));
        Ok(SubscriptionReceipt(sub, inv, true, "Assinatura processada com sucesso!"))
  }

  /** An unknown plan fails, naming it, before the details are looked at. */
  lemma UnknownPlanFailsFirst(userId: string, planId: string, d: PaymentDetails, sid: string, iid: string)
    requires GetSubscriptionPlan(planId).None?
    ensures ProcessSubscription(userId, planId, d, sid, iid) == Err("Invalid plan ID: " + planId)
  {
  }

  /** A known plan fails exactly as validation does; on success the
      subscription and invoice carry the plan's price and interval, the
      invoice names the subscription, and the receipt reports success. */
  lemma SubscriptionRecords(userId: string, planId: string, d: PaymentDetails, sid: string, iid: string)
    requires GetSubscriptionPlan(planId).Some?
    ensures ProcessSubscription(userId, planId, d, sid, iid).Ok? <==> Acceptable(PaymentMethods(), d)
    ensures ProcessSubscription(userId, planId, d, sid, iid).Err? ==>
              ProcessSubscription(userId, planId, d, sid, iid).message == ValidatePaymentDetails(PaymentMethods(), d).message
    ensures ProcessSubscription(userId, planId, d, sid, iid).Ok? ==>
              var rec, p := ProcessSubscription(userId, planId, d, sid, iid).value, GetSubscriptionPlan(planId).value;
              && rec.success && rec.message == "Assinatura processada com sucesso!"
              && rec.subscription.userId == userId && rec.subscription.planId == planId
              && rec.subscription.planName == p.name
              && rec.subscription.priceCents == p.priceCents && rec.subscription.interval == p.interval
              && rec.subscription.status == "active" && rec.subscription.autoRenew
              && rec.invoice.amountCents == p.priceCents && rec.invoice.status == "paid"
              && rec.invoice.subscriptionId == rec.subscription.id && rec.invoice.userId == userId
              && rec.subscription.paymentMethod == d.methodId && rec.invoice.paymentMethod == d.methodId
  {
    ValidateAcceptsExactly(PaymentMethods(), d);
  }

  /** lastFour holds the card number's last four characters for a card
      payment and is null otherwise. */
  lemma LastFourOfCards(userId: string, planId: string, d: PaymentDetails, sid: string, iid: string)
    requires ProcessSubscription(userId, planId, d, sid, iid).Ok?
    ensures var s := ProcessSubscription(userId, planId, d, sid, iid).value.subscription;
            if IsCardMethod(d.methodId) then
              d.cardNumber.Some? && s.lastFour.Some? && |s.lastFour.value| == 4 &&
              d.cardNumber.value == d.cardNumber.value[..|d.cardNumber.value| - 4] + s.lastFour.value
            else s.lastFour.None?
  {
    ValidateAcceptsExactly(PaymentMethods(), d);
  }

  /** The invoice description names the plan and says 'Mensal' exactly for
      monthly plans. */
  lemma InvoiceDescription(userId: string, planId: string, d: PaymentDetails, sid: string, iid: string)
    requires ProcessSubscription(userId, planId, d, sid, iid).Ok?
    ensures var rec, p := ProcessSubscription(userId, planId, d, sid, iid).value, GetSubscriptionPlan(planId).value;
            rec.invoice.description == "Assinatura " + p.name + " - " + IntervalLabel(p.interval) &&
            (IntervalLabel(p.interval) == "Mensal" <==> p.interval == Month)
  {
  }

  // ---- plan change ----------------------------------------------------------

  datatype PlanSummary = PlanSummary(id: string, name: string, priceCents: nat, interval: Interval)

  datatype PlanChange = PlanChange(success: bool, message: string, newPlan: PlanSummary)

  /** updateSubscription: an unknown plan fails; otherwise the new plan's
      id, name, price and interval are reported. The subscription id is not
      used, and the dates are left out. */
  function UpdateSubscription(subscriptionId: string, newPlanId: string): (r: Result<PlanChange>)
    ensures r.Err? <==> GetSubscriptionPlan(newPlanId).None?
    ensures r.Err? ==> r.message == "Invalid plan ID: " + newPlanId
    ensures r.Ok? ==>
              var p := GetSubscriptionPlan(newPlanId).value;
              r.value.success && r.value.message == "Assinatura atualizada com sucesso" &&
              r.value.newPlan == PlanSummary(p.id, p.name, p.priceCents, p.interval) &&
              p in Plans() && r.value.newPlan.id == newPlanId
  {
    var newPlan := GetSubscriptionPlan(newPlanId);
    if newPlan.None? then Err("Invalid plan ID: " + newPlanId)
    else
      var p := newPlan.value;
      Ok(PlanChange(true, "Assinatura atualizada com sucesso", PlanSummary(p.id, p.name, p.priceCents, p.interval)))
  }
}
