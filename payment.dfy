/**
 * The payment controller (controllers/paymentController.js): the lazily built and
 * cached gateway client, the validation chain and option building of
 * `createPaymentOrder`, and the gate pipeline of `verifyPayment` that ends in its
 * single order write.
 *
 * The gateway's `orders.create` and `payments.fetch`, the HMAC-SHA256 of RFC 2104 and
 * FIPS 180-4, and `Number(text)` are parameters: functions the caller supplies.
 */
module PaymentController {
  import opened Wrappers
  import Json
  import JsString
  import Hex
  import OrderModel
  import Collections

  // ---------------------------------------------------------------------------
  // The gateway client and its cache
  // ---------------------------------------------------------------------------

  /** `RAZORPAY_KEY_ID` and `RAZORPAY_KEY_SECRET` as the process sees them; `None` when unset. */
  datatype Env = Env(keyId: Option<string>, keySecret: Option<string>)

  /** An environment variable is truthy when it is set to a non-empty string. */
  predicate IsSet(v: Option<string>) {
    v.Some? && v.value != ""
  }

  /** Both keys set and the secret not a placeholder. */
  predicate Configured(env: Env) {
    IsSet(env.keyId) && IsSet(env.keySecret) && !JsString.Includes(env.keySecret.value, "placeholder")
  }

  datatype Client = Client(keyId: string, keySecret: string)

  function ClientFor(env: Env): Client
    requires Configured(env)
  {
    Client(env.keyId.value, env.keySecret.value)
  }

  /** One call of `initializeRazorpay` against the cached value. */
  function InitStep(cached: Option<Client>, env: Env): Option<Client> {
    if cached.Some? then cached
    else if Configured(env) then Some(ClientFor(env))
    else None
  }

  /** The cache after a run of calls, each one seeing the environment of its time. */
  function InitAll(cached: Option<Client>, envs: seq<Env>): Option<Client>
    decreases |envs|
  {
    if envs == [] then cached else InitAll(InitStep(cached, envs[0]), envs[1..])
  }

  /** Once a client is cached, no later call replaces it, whatever the environment. */
  lemma {:induction false} InitAllKeeps(c: Client, envs: seq<Env>)
    ensures InitAll(Some(c), envs) == Some(c)
    decreases |envs|
  {
    if envs != [] {
      InitAllKeeps(c, envs[1..]);
    }
  }

  /** Starting from an empty cache, there is a client exactly when some call saw a configured
      environment, and it is the client of the first such environment. */
  lemma {:induction false} InitAllFirstConfigured(envs: seq<Env>)
    ensures InitAll(None, envs) ==
      var i := Collections.FirstIndex(envs, Configured);
      if i.None? then None else Some(ClientFor(envs[i.value]))
    decreases |envs|
  {
    if envs != [] {
      assert forall j :: 1 <= j < |envs| ==> envs[j] == envs[1..][j - 1];
      if Configured(envs[0]) {
        InitAllKeeps(ClientFor(envs[0]), envs[1..]);
      } else {
        InitAllFirstConfigured(envs[1..]);
        var i := Collections.FirstIndex(envs, Configured);
        var k := Collections.FirstIndex(envs[1..], Configured);
        if k.Some? {
          assert i.Some? && i.value == k.value + 1;
        }
      }
    }
  }

  /** The module-level `razorpay` variable. */
  class GatewayCache {
    var client: Option<Client>

    constructor()
      ensures client.None?
    {
      client := None;
    }

    /** `initializeRazorpay`: the cached client when there is one; otherwise a new client
        when the environment is configured, which is then cached; otherwise nothing. */
    method Initialize(env: Env) returns (c: Option<Client>)
      modifies this
      ensures client == InitStep(old(client), env)
      ensures c == client
    {
      if client.Some? {
        return client;
      }
      if IsSet(env.keyId) && IsSet(env.keySecret) && !JsString.Includes(env.keySecret.value, "placeholder") {
        client := Some(Client(env.keyId.value, env.keySecret.value));
        return client;
      }
      return None;
    }
  }

  // ---------------------------------------------------------------------------
  // Pieces of the request checks
  // ---------------------------------------------------------------------------

  function Abs(x: real): real {
    if x < 0.0 then -x else x
  }

  /** `Math.round`: the nearest integer, halves rounded up. */
  function Round(x: real): (r: int)
    ensures x - 0.5 < r as real <= x + 0.5
  {
    (x + 0.5).Floor
  }

  /** The string at `k` when `v` is an object holding a string there, else "". */
  function StrAt(v: Json.Value, k: string): string {
    var f := Json.Get(v, k);
    if f.Some? && f.value.Str? then f.value.s else ""
  }

  /** No white space (`\s`) and no `@`. */
  predicate NoSpaceOrAt(s: string) {
    forall i :: 0 <= i < |s| ==> !JsString.IsSpace(s[i]) && s[i] != '@'
  }

  /** The part after the `@` of `/^[^\s@]+@[^\s@]+\.[^\s@]+$/`: a dot with text on both sides. */
  predicate ValidDomain(d: string) {
    NoSpaceOrAt(d) && exists j :: 0 < j < |d| - 1 && d[j] == '.'
  }

  /** `/^[^\s@]+@[^\s@]+\.[^\s@]+$/` */
  predicate ValidEmail(s: string) {
    exists i :: 0 < i < |s| && s[i] == '@' && NoSpaceOrAt(s[..i]) && ValidDomain(s[i + 1..])
  }

  lemma NoSpaceOrAtCount(s: string)
    requires NoSpaceOrAt(s)
    ensures JsString.Count(s, '@') == 0
  {
    JsString.CountZero(s, '@');
  }

  /** Two parts without white space or `@`, joined by one `@`, hold exactly one `@` and no
      white space. */
  lemma JoinedAtOnce(a: string, d: string)
    requires NoSpaceOrAt(a) && NoSpaceOrAt(d)
    ensures JsString.Count(a + ['@'] + d, '@') == 1
    ensures forall k :: 0 <= k < |a + ['@'] + d| ==> !JsString.IsSpace((a + ['@'] + d)[k])
  {
    NoSpaceOrAtCount(a);
    NoSpaceOrAtCount(d);
    JsString.CountAppend(a + ['@'], d, '@');
    JsString.CountAppend(a, ['@'], '@');
  }

  /** An address the pattern admits has exactly one `@`, no white space, text before the `@`
      and a dot inside the part after it. */
  lemma ValidEmailShape(s: string)
    requires ValidEmail(s)
    ensures JsString.Count(s, '@') == 1
    ensures forall k :: 0 <= k < |s| ==> !JsString.IsSpace(s[k])
    ensures s[0] != '@'
  {
    var i :| 0 < i < |s| && s[i] == '@' && NoSpaceOrAt(s[..i]) && ValidDomain(s[i + 1..]);
    assert s == s[..i] + ['@'] + s[i + 1..];
    JoinedAtOnce(s[..i], s[i + 1..]);
    assert s[0] == s[..i][0];
  }

  /** `/^[6-9]\d{9}$/` on the digits of the phone number. */
  predicate ValidPhone(phone: string) {
    var d := JsString.DigitsOnly(phone);
    |d| == 10 && '6' <= d[0] <= '9'
  }

  // ---------------------------------------------------------------------------
  // createPaymentOrder
  // ---------------------------------------------------------------------------

  const RequiredFields: seq<string> := ["name", "email", "phone"]

  /** One required customer field: truthy, a string, and not blank after trimming. */
  predicate CustomerFieldOk(info: Json.Value, field: string) {
    var f := Json.Get(info, field);
    Json.Truthy(f) && f.value.Str? && JsString.Trim(f.value.s) != ""
  }

  function FieldRejected(info: Json.Value): string -> bool {
    (field: string) => !CustomerFieldOk(info, field)
  }

  /** The loop over the required customer fields: the first one that fails, in the order
      name, email, phone. */
  method FirstInvalidCustomerField(info: Json.Value) returns (r: Option<string>)
    ensures r == Collections.First(RequiredFields, FieldRejected(info))
    ensures r.None? <==> forall i :: 0 <= i < |RequiredFields| ==> CustomerFieldOk(info, RequiredFields[i])
  {
    var i := 0;
    while i < |RequiredFields|
      invariant 0 <= i <= |RequiredFields|
      invariant forall j :: 0 <= j < i ==> CustomerFieldOk(info, RequiredFields[j])
    {
      var field := RequiredFields[i];
      var v := Json.Get(info, field);
      if !Json.Truthy(v) || !v.value.Str? || |JsString.Trim(v.value.s)| == 0 {
        assert !CustomerFieldOk(info, field);
        Collections.FirstAt(RequiredFields, FieldRejected(info), i);
        return Some(field);
      }
      assert CustomerFieldOk(info, field);
      i := i + 1;
    }
    return None;
  }

  datatype ItemVerdict = ItemOk | ItemIncomplete | ItemNotPositive | ItemThrows

  /** The checks on one item: `item.id` throws on a null item; then id and name must be
      truthy and price and quantity numbers; then both must be positive. */
  function CheckItem(item: Json.Value): ItemVerdict {
    if item.Null? then ItemThrows
    else
      var price := Json.Get(item, "price");
      var quantity := Json.Get(item, "quantity");
      if !Json.Truthy(Json.Get(item, "id")) || !Json.Truthy(Json.Get(item, "name"))
         || !(price.Some? && price.value.Num?) || !(quantity.Some? && quantity.value.Num?)
      then ItemIncomplete
      else if price.value.n <= 0.0 || quantity.value.n <= 0.0 then ItemNotPositive
      else ItemOk
  }

  predicate ItemFails(item: Json.Value) {
    CheckItem(item) != ItemOk
  }

  /** The verdict of the first item that fails a check, or `ItemOk` when none does. */
  function CheckItems(items: seq<Json.Value>): (r: ItemVerdict)
    ensures r == ItemOk <==> forall i :: 0 <= i < |items| ==> CheckItem(items[i]) == ItemOk
  {
    var i := Collections.FirstIndex(items, ItemFails);
    if i.None? then ItemOk else CheckItem(items[i.value])
  }

  /** The loop over the items, returning at the first failing one. */
  method ScanItems(items: seq<Json.Value>) returns (v: ItemVerdict)
    ensures v == CheckItems(items)
  {
    var i := 0;
    while i < |items|
      invariant 0 <= i <= |items|
      invariant forall j :: 0 <= j < i ==> CheckItem(items[j]) == ItemOk
    {
      var item := items[i];
      if item.Null? {
        assert ItemFails(items[i]);
        return ItemThrows;
      }
      var price := Json.Get(item, "price");
      var quantity := Json.Get(item, "quantity");
      if !Json.Truthy(Json.Get(item, "id")) || !Json.Truthy(Json.Get(item, "name"))
         || !(price.Some? && price.value.Num?) || !(quantity.Some? && quantity.value.Num?) {
        assert ItemFails(items[i]);
        return ItemIncomplete;
      }
      if price.value.n <= 0.0 || quantity.value.n <= 0.0 {
        assert ItemFails(items[i]);
        return ItemNotPositive;
      }
      i := i + 1;
    }
    return ItemOk;
  }

  /** `item.price * item.quantity`, once both are known to be numbers. */
  function ItemAmount(item: Json.Value): real {
    var price := Json.Get(item, "price");
    var quantity := Json.Get(item, "quantity");
    if price.Some? && price.value.Num? && quantity.Some? && quantity.value.Num?
    then price.value.n * quantity.value.n else 0.0
  }

  /** `items.reduce((sum, item) => sum + item.price * item.quantity, 0)` */
  function ItemsTotal(items: seq<Json.Value>): real {
    Collections.Sum(items, ItemAmount)
  }

  /** A sum of positive line amounts is positive. */
  lemma {:induction false} ItemsTotalPositive(items: seq<Json.Value>)
    requires |items| > 0 && CheckItems(items) == ItemOk
    ensures ItemsTotal(items) > 0.0
  {
    assert CheckItem(items[0]) == ItemOk;
    var p := Json.Get(items[0], "price").value.n;
    var q := Json.Get(items[0], "quantity").value.n;
    assert ItemAmount(items[0]) == p * q > 0.0;
    assert ItemsTotal(items) == ItemAmount(items[0]) + ItemsTotal(items[1..]);
    if |items| == 1 {
      assert items[1..] == [];
      assert ItemsTotal(items[1..]) == 0.0;
    } else {
      assert forall j :: 0 <= j < |items[1..]| ==> items[1..][j] == items[j + 1];
      ItemsTotalPositive(items[1..]);
    }
  }

  datatype Notes = Notes(customerName: string, customerEmail: string, customerPhone: string, itemCount: nat, totalAmount: real)

  datatype OrderOptions = OrderOptions(amount: int, currency: string, receipt: string, notes: Notes)

  /** `` `receipt_${Date.now()}`.substring(0, 40) `` */
  function Receipt(now: nat): (r: string)
    ensures |r| <= 40 && JsString.StartsWith(r, "receipt_")
    ensures |JsString.Decimal(now)| <= 32 ==> r == "receipt_" + JsString.Decimal(now)
  {
    var s := "receipt_" + JsString.Decimal(now);
    assert JsString.Take(s, 40)[..8] == "receipt_";
    JsString.Take(s, 40)
  }

  /** The options sent to `orders.create`: the amount in paise, the receipt and the notes. */
  function BuildOptions(amount: real, currency: string, name: string, email: string, phone: string,
                        itemCount: nat, now: nat): (o: OrderOptions)
    ensures o.amount == Round(amount * 100.0) && o.currency == currency
    ensures |o.receipt| <= 40
    ensures |o.notes.customerName| <= 50 && JsString.StartsWith(name, o.notes.customerName)
    ensures |o.notes.customerEmail| <= 50 && JsString.StartsWith(email, o.notes.customerEmail)
    ensures |o.notes.customerPhone| <= 15 && JsString.StartsWith(phone, o.notes.customerPhone)
    ensures o.notes.itemCount == itemCount && o.notes.totalAmount == amount
  {
    OrderOptions(Round(amount * 100.0), currency, Receipt(now),
                 Notes(JsString.Take(name, 50), JsString.Take(email, 50), JsString.Take(phone, 15),
                       itemCount, amount))
  }

  /** The reply of `orders.create`; the order it describes is opaque here. */
  datatype CreateReply = CreateThrew | CreatedOrder(id: string, amount: int, currency: string, receipt: string)

  datatype CreateOutcome =
    | CreateNotConfigured
    | MissingOrderFields
    | AmountOutOfRange
    | InvalidCurrency
    | InvalidCustomerField(field: string)
    | InvalidEmail
    | InvalidPhone
    | ItemsNotAList
    | IncompleteItem
    | NonPositiveItem
    | AmountMismatch
    | CreateFailed
    | PaymentOrderCreated(options: OrderOptions, order: CreateReply, key: Option<string>)

  function CreateStatus(r: CreateOutcome): int {
    match r
    case CreateNotConfigured => 500
    case CreateFailed => 500
    case PaymentOrderCreated(_, _, _) => 200
    case _ => 400
  }

  /** `currency = 'INR'`: the default applies only when the field is absent. */
  function CurrencyOf(body: Json.Value): Json.Value {
    var c := Json.Get(body, "currency");
    if c.None? then Json.Str("INR") else c.value
  }

  /** What the first gates demand of the body: an amount that is a number in (0, 500000],
      truthy customer data and items, and a currency of "INR" or "USD". */
  predicate ValidBody(body: Json.Value) {
    var amount := Json.Get(body, "amount");
    && amount.Some? && amount.value.Num? && 0.0 < amount.value.n <= 500000.0
    && Json.Truthy(Json.Get(body, "customerInfo")) && Json.Truthy(Json.Get(body, "items"))
    && CurrencyOf(body) in {Json.Str("INR"), Json.Str("USD")}
  }

  /** The presence, amount and currency gates, in source order. */
  function BodyGate(body: Json.Value): (r: Option<CreateOutcome>)
    ensures r.None? <==> ValidBody(body)
    ensures r.Some? ==> r.value in {MissingOrderFields, AmountOutOfRange, InvalidCurrency}
  {
    var amount := Json.Get(body, "amount");
    var currency := CurrencyOf(body);
    if !Json.Truthy(amount) || !Json.Truthy(Json.Get(body, "customerInfo")) || !Json.Truthy(Json.Get(body, "items"))
    then Some(MissingOrderFields)
    else if !amount.value.Num? || amount.value.n <= 0.0 || amount.value.n > 500000.0 then Some(AmountOutOfRange)
    else if currency != Json.Str("INR") && currency != Json.Str("USD") then Some(InvalidCurrency)
    else None
  }

  /** What the customer gates demand: name, email and phone present and not blank, the email
      of the address pattern, and ten phone digits starting with 6 to 9. */
  predicate ValidCustomer(info: Json.Value) {
    && CustomerFieldOk(info, "name") && CustomerFieldOk(info, "email") && CustomerFieldOk(info, "phone")
    && ValidEmail(StrAt(info, "email")) && ValidPhone(StrAt(info, "phone"))
  }

  /** The required-field loop, then the email and the phone checks. */
  function CustomerGate(info: Json.Value): (r: Option<CreateOutcome>)
    ensures r.None? <==> ValidCustomer(info)
    ensures r.Some? ==> r.value.InvalidCustomerField? || r.value in {InvalidEmail, InvalidPhone}
  {
    var bad := Collections.First(RequiredFields, FieldRejected(info));
    assert bad.None? <==> forall j :: 0 <= j < |RequiredFields| ==> !FieldRejected(info)(RequiredFields[j]);
    if bad.Some? then Some(InvalidCustomerField(bad.value))
    else if !ValidEmail(StrAt(info, "email")) then Some(InvalidEmail)
    else if !ValidPhone(StrAt(info, "phone")) then Some(InvalidPhone)
    else None
  }

  /** The customer fields are checked in the order name, email, phone, and the reply names the
      first that fails, whatever the later fields hold. */
  lemma CustomerFieldOrder(info: Json.Value)
    requires CustomerGate(info).Some? && CustomerGate(info).value.InvalidCustomerField?
    ensures var f := CustomerGate(info).value.field;
      && f in RequiredFields && !CustomerFieldOk(info, f)
      && (f == "email" ==> CustomerFieldOk(info, "name"))
      && (f == "phone" ==> CustomerFieldOk(info, "name") && CustomerFieldOk(info, "email"))
  {
    var p := FieldRejected(info);
    var k := Collections.FirstIndex(RequiredFields, p);
    assert k.Some?;
    assert forall j :: 0 <= j < k.value ==> !p(RequiredFields[j]);
  }

  /** What the item gates demand: a non-empty array of complete items with positive prices and
      quantities, whose line amounts add up to the amount within 0.01. */
  predicate ValidItems(items: Json.Value, amount: real) {
    && items.Arr? && |items.elems| > 0
    && (forall i :: 0 <= i < |items.elems| ==> CheckItem(items.elems[i]) == ItemOk)
    && Abs(ItemsTotal(items.elems) - amount) <= 0.01
  }

  /** The array check, the item loop (a null item throws, hence 500) and the total check. */
  function ItemsGate(items: Json.Value, amount: real): (r: Option<CreateOutcome>)
    ensures r.None? <==> ValidItems(items, amount)
    ensures r.Some? ==> r.value in {ItemsNotAList, CreateFailed, IncompleteItem, NonPositiveItem, AmountMismatch}
  {
    if !items.Arr? || |items.elems| == 0 then Some(ItemsNotAList)
    else
      var verdict := CheckItems(items.elems);
      if verdict == ItemThrows then Some(CreateFailed)
      else if verdict == ItemIncomplete then Some(IncompleteItem)
      else if verdict == ItemNotPositive then Some(NonPositiveItem)
      else if Abs(ItemsTotal(items.elems) - amount) > 0.01 then Some(AmountMismatch)
      else None
  }

  /** Everything `createPaymentOrder` demands of a request body, stated on its own. */
  predicate ValidCreateRequest(body: Json.Value) {
    && ValidBody(body)
    && ValidCustomer(Json.Get(body, "customerInfo").value)
    && ValidItems(Json.Get(body, "items").value, Json.Get(body, "amount").value.n)
  }

  /** All validation gates of `createPaymentOrder`, in source order; `None` when the request
      passes them all. */
  function CreateGate(body: Json.Value): (r: Option<CreateOutcome>)
    ensures r.None? <==> ValidCreateRequest(body)
    ensures r.Some? ==> !r.value.PaymentOrderCreated? && !r.value.CreateNotConfigured?
  {
    var g := BodyGate(body);
    if g.Some? then g
    else
      var c := CustomerGate(Json.Get(body, "customerInfo").value);
      if c.Some? then c
      else ItemsGate(Json.Get(body, "items").value, Json.Get(body, "amount").value.n)
  }

  /** The fields the options are read from are present and of the expected kind; every
      request that passes the gates has this shape. */
  predicate OrderShaped(body: Json.Value) {
    var amount := Json.Get(body, "amount");
    var items := Json.Get(body, "items");
    && amount.Some? && amount.value.Num? && Json.Get(body, "customerInfo").Some?
    && items.Some? && items.value.Arr? && CurrencyOf(body).Str?
  }

  /** The options built for a valid request. */
  function OptionsFor(body: Json.Value, now: nat): OrderOptions
    requires OrderShaped(body)
  {
    var info := Json.Get(body, "customerInfo").value;
    BuildOptions(Json.Get(body, "amount").value.n, CurrencyOf(body).s, StrAt(info, "name"),
                 StrAt(info, "email"), StrAt(info, "phone"), |Json.Get(body, "items").value.elems|, now)
  }

  /** `createPaymentOrder` once the client is known: the configuration check, the validation
      gates, then the options and the gateway call, whose failure is a 500. */
  function DecideCreate(client: Option<Client>, env: Env, body: Json.Value, now: nat,
                        create: OrderOptions -> CreateReply): CreateOutcome
  {
    if client.None? then CreateNotConfigured
    else
      var g := CreateGate(body);
      if g.Some? then g.value
      else
        var options := OptionsFor(body, now);
        var reply := create(options);
        if reply.CreateThrew? then CreateFailed
        else PaymentOrderCreated(options, reply, env.keyId)
  }

  /** A payment order is created exactly when the service is configured, the request passes
      every check and the gateway call succeeds; the reply then carries the options built from
      the request, the gateway's order and the public key id. */
  lemma CreateSucceedsIff(client: Option<Client>, env: Env, body: Json.Value, now: nat,
                          create: OrderOptions -> CreateReply)
    ensures DecideCreate(client, env, body, now, create).PaymentOrderCreated? <==>
      client.Some? && ValidCreateRequest(body) && !create(OptionsFor(body, now)).CreateThrew?
    ensures DecideCreate(client, env, body, now, create).PaymentOrderCreated? ==>
      var r := DecideCreate(client, env, body, now, create);
      r.options == OptionsFor(body, now) && r.order == create(r.options) && r.key == env.keyId
  {
  }

  /** Of a request that passes the body and item gates, as every created order's does (see
      `CreateSucceedsIff`): the amount is in (0, 500000], the amount sent is that amount in
      paise, off by at most half a paisa, and the line items add up to the amount within 0.01. */
  lemma RequestAmounts(body: Json.Value, now: nat)
    requires OrderShaped(body) && ValidBody(body)
    requires ValidItems(Json.Get(body, "items").value, Json.Get(body, "amount").value.n)
    ensures var amount := Json.Get(body, "amount").value.n;
      var options := OptionsFor(body, now);
      && 0.0 < amount <= 500000.0
      && Abs(options.amount as real - amount * 100.0) <= 0.5
      && 0 <= options.amount <= 50000000
      && Abs(ItemsTotal(Json.Get(body, "items").value.elems) - amount) <= 0.01
      && options.notes.itemCount == |Json.Get(body, "items").value.elems| > 0
  {
    PaiseBounds(Json.Get(body, "amount").value.n);
  }

  /** An amount in (0, 500000] rounds to at most 50000000 paise, within half a paisa. */
  lemma PaiseBounds(amount: real)
    requires 0.0 < amount <= 500000.0
    ensures var p := Round(amount * 100.0);
      Abs(p as real - amount * 100.0) <= 0.5 && 0 <= p <= 50000000
  {
    var p := Round(amount * 100.0);
    assert p as real <= 50000000.5;
  }

  /** The customer gates with the required-field loop. */
  method CheckCustomer(info: Json.Value) returns (r: Option<CreateOutcome>)
    ensures r == CustomerGate(info)
  {
    var bad := FirstInvalidCustomerField(info);
    if bad.Some? {
      return Some(InvalidCustomerField(bad.value));
    }
    if !ValidEmail(StrAt(info, "email")) {
      return Some(InvalidEmail);
    }
    if !ValidPhone(StrAt(info, "phone")) {
      return Some(InvalidPhone);
    }
    return None;
  }

  /** The item gates with the item loop. */
  method CheckItemList(items: Json.Value, amount: real) returns (r: Option<CreateOutcome>)
    ensures r == ItemsGate(items, amount)
  {
    if !items.Arr? || |items.elems| == 0 {
      return Some(ItemsNotAList);
    }
    var verdict := ScanItems(items.elems);
    if verdict == ItemThrows {
      return Some(CreateFailed);
    } else if verdict == ItemIncomplete {
      return Some(IncompleteItem);
    } else if verdict == ItemNotPositive {
      return Some(NonPositiveItem);
    }
    if Abs(ItemsTotal(items.elems) - amount) > 0.01 {
      return Some(AmountMismatch);
    }
    return None;
  }

  /** `createPaymentOrder`: initialises the client through the cache, runs the gates with the
      two checking loops, and calls the gateway. */
  method CreatePaymentOrder(cache: GatewayCache, env: Env, body: Json.Value, now: nat,
                            create: OrderOptions -> CreateReply) returns (r: CreateOutcome)
    modifies cache
    ensures cache.client == InitStep(old(cache.client), env)
    ensures r == DecideCreate(cache.client, env, body, now, create)
  {
    var client := cache.Initialize(env);
    if client.None? {
      return CreateNotConfigured;
    }
    var g := BodyGate(body);
    if g.Some? {
      return g.value;
    }
    var c := CheckCustomer(Json.Get(body, "customerInfo").value);
    if c.Some? {
      return c.value;
    }
    var i := CheckItemList(Json.Get(body, "items").value, Json.Get(body, "amount").value.n);
    if i.Some? {
      return i.value;
    }
    var options := OptionsFor(body, now);
    var reply := create(options);
    if reply.CreateThrew? {
      return CreateFailed;
    }
    return PaymentOrderCreated(options, reply, env.keyId);
  }

  // ---------------------------------------------------------------------------
  // verifyPayment
  // ---------------------------------------------------------------------------

  /** `prefix` followed by exactly `n` ASCII letters and digits, and nothing else. */
  predicate PrefixedId(s: string, prefix: string, n: nat) {
    |s| == |prefix| + n && s[..|prefix|] == prefix
    && forall i :: |prefix| <= i < |s| ==> JsString.IsAlnumAscii(s[i])
  }

  /** `/^order_[A-Za-z0-9]{14}$/` */
  predicate IsGatewayOrderId(s: string) {
    PrefixedId(s, "order_", 14)
  }

  /** `/^pay_[A-Za-z0-9]{14}$/` */
  predicate IsGatewayPaymentId(s: string) {
    PrefixedId(s, "pay_", 14)
  }

  /** `/^[a-f0-9]{64}$/` */
  predicate IsSignatureText(s: string) {
    |s| == 64 && Hex.IsLowerHex(s)
  }

  datatype SignatureCheck = Authentic | Forged | CompareThrew

  /** The HMAC of `orderId|paymentId` under the secret, hex-encoded, and both hex strings
      read back as bytes and compared; unequal lengths make `timingSafeEqual` throw, and an
      unset secret makes `createHmac` throw. */
  function CheckSignature(secret: Option<string>, orderId: string, paymentId: string, signature: string,
                          mac: (string, string) -> seq<Hex.byte>): (r: SignatureCheck)
    requires IsSignatureText(signature)
    ensures r == Authentic <==> secret.Some? && mac(secret.value, orderId + "|" + paymentId) == Hex.Decode(signature)
    ensures r == Authentic ==> Hex.Encode(mac(secret.value, orderId + "|" + paymentId)) == signature
    ensures r == CompareThrew <==> secret.None? || |mac(secret.value, orderId + "|" + paymentId)| != 32
  {
    if secret.None? then CompareThrew
    else
      var digest := mac(secret.value, orderId + "|" + paymentId);
      var expected := Hex.Encode(digest);
      var a := Hex.Decode(expected);
      var b := Hex.Decode(signature);
      Hex.DecodeEncode(digest);
      Hex.EncodeDecode(signature);
      if |a| != |b| then CompareThrew
      else if a == b then Authentic
      else Forged
  }

  /** The reply of `payments.fetch`: a thrown error, or the payment's status and amount in paise. */
  datatype FetchResult = FetchThrew | Fetched(status: string, paise: int)

  datatype Confirmation = Confirmed | NotCapturedStatus(status: string) | AmountDiffers

  /** The best-effort remote confirmation: a thrown fetch lets the payment through; a fetched
      payment must be captured and its amount match within 0.01. */
  function Confirm(reply: FetchResult, amount: real): (r: Confirmation)
    ensures r.Confirmed? <==>
      reply.FetchThrew? || (reply.status == "captured" && Abs(reply.paise as real / 100.0 - amount) <= 0.01)
  {
    if reply.FetchThrew? then Confirmed
    else if reply.status != "captured" then NotCapturedStatus(reply.status)
    else if Abs(reply.paise as real / 100.0 - amount) > 0.01 then AmountDiffers
    else Confirmed
  }

  /** `` `ORD${Date.now()}${paymentId.slice(-4).toUpperCase()}` `` */
  function OrderIdFor(now: nat, paymentId: string): (r: string)
    ensures JsString.StartsWith(r, "ORD")
    ensures |r| == 3 + |JsString.Decimal(now)| + (if |paymentId| < 4 then |paymentId| else 4)
  {
    "ORD" + JsString.Decimal(now) + JsString.ToUpper(JsString.Last(paymentId, 4))
  }

  lemma MiddleDetermined(p: string, m1: string, m2: string, t: string)
    requires p + m1 + t == p + m2 + t
    ensures m1 == m2
  {
    var a := p + m1 + t;
    assert a[|p|..|a| - |t|] == m1;
    assert (p + m2 + t)[|p|..|a| - |t|] == m2;
  }

  /** For one payment, the time stamp is recoverable from the order id: two ids built at
      different milliseconds differ. */
  lemma OrderIdDeterminesTime(t1: nat, t2: nat, paymentId: string)
    ensures OrderIdFor(t1, paymentId) == OrderIdFor(t2, paymentId) ==> t1 == t2
  {
    var tail := JsString.ToUpper(JsString.Last(paymentId, 4));
    if OrderIdFor(t1, paymentId) == OrderIdFor(t2, paymentId) {
      MiddleDetermined("ORD", JsString.Decimal(t1), JsString.Decimal(t2), tail);
      JsString.DecimalInjective(t1, t2);
    }
  }

  /** The upper-cased last four characters of a well-formed payment id end the order id. */
  lemma OrderIdEndsWithPaymentTail(now: nat, paymentId: string)
    requires IsGatewayPaymentId(paymentId)
    ensures var r := OrderIdFor(now, paymentId);
      r[|r| - 4..] == JsString.ToUpper(paymentId[14..])
  {
  }

  /** `v?.substring(0, n) || default`: a non-string value throws (`None`). */
  function Sanitized(v: Option<Json.Value>, n: nat, default: string): (r: Option<string>)
    ensures r.None? <==> !Json.Nullish(v) && !v.value.Str?
    ensures r.Some? && r.value != default ==>
      v.Some? && v.value.Str? && |r.value| <= n && r.value != "" && JsString.StartsWith(v.value.s, r.value)
    ensures r.Some? && n > 0 && v.Some? && v.value.Str? && v.value.s != "" ==> r.value == JsString.Take(v.value.s, n)
    ensures default != "" && r.Some? ==> r.value != ""
  {
    if Json.Nullish(v) then Some(default)
    else if !v.value.Str? then None
    else
      var t := JsString.Take(v.value.s, n);
      Some(if t == "" then default else t)
  }

  /** `v?.replace(/[^\d]/g, '').substring(0, n) || ''`: the first `n` digits. */
  function SanitizedDigits(v: Option<Json.Value>, n: nat): (r: Option<string>)
    ensures r.None? <==> !Json.Nullish(v) && !v.value.Str?
    ensures r.Some? ==> JsString.AllDigits(r.value) && |r.value| <= n
    ensures r.Some? && v.Some? && v.value.Str? ==> JsString.StartsWith(JsString.DigitsOnly(v.value.s), r.value)
    ensures r.Some? && v.Some? && v.value.Str? && |JsString.DigitsOnly(v.value.s)| <= n ==>
      r.value == JsString.DigitsOnly(v.value.s)
  {
    if Json.Nullish(v) then Some("")
    else if !v.value.Str? then None
    else Some(JsString.Take(JsString.DigitsOnly(v.value.s), n))
  }

  /** `Number(v)` of a value that is present, with NaN as `None`; the text of a string goes
      to `parseNumber`. An array converts through its text, `join(",")`: the empty one is 0,
      two or more elements leave a comma in the text, which no number has, and a single element
      converts as its own text (null gives "", so 0). */
  function NumberOf(v: Json.Value, parseNumber: string -> Option<real>): (r: Option<real>)
    ensures v.Arr? && v.elems == [] ==> r == Some(0.0)
    ensures v.Arr? && |v.elems| > 1 ==> r.None?
    ensures v.Arr? && |v.elems| == 1 && !v.elems[0].Null? && !v.elems[0].Bool? && !v.elems[0].Obj? ==>
      r == NumberOf(v.elems[0], parseNumber)
    decreases v
  {
    match v
    case Null => Some(0.0)
    case Bool(b) => Some(if b then 1.0 else 0.0)
    case Num(n) => Some(n)
    case Str(s) => parseNumber(s)
    case Obj(_) => None
    case Arr(e) =>
      if e == [] then Some(0.0)
      else if |e| > 1 then None
      else
        assert e[0] in e;
        match e[0]
        case Null => parseNumber("")
        case Bool(b) => parseNumber(if b then "true" else "false")
        case Obj(_) => parseNumber("[object Object]")
        case _ => NumberOf(e[0], parseNumber)
  }

  /** `Number(v)` of a field that may be undefined, which is NaN. */
  function ToNumber(v: Option<Json.Value>, parseNumber: string -> Option<real>): Option<real> {
    if v.None? then None else NumberOf(v.value, parseNumber)
  }

  /** `v?.substring(...)` throws on a value that is neither undefined, null nor a string. */
  predicate SubstringThrows(v: Option<Json.Value>) {
    !Json.Nullish(v) && !v.value.Str?
  }

  /** One element of `items.map(...)` as the Order schema keeps it: `name` cut to 200 characters
      ("" when absent, which the required check then refuses), `price` and `quantity` through
      `Number`. `None` when the element throws (a null item, a `name` or `image` that is present
      and not a string, so that `?.substring` throws) or a number is NaN, which the schema cannot
      cast. `id` and the cut `image` are built but the schema does not keep them. */
  function ProjectItem(item: Json.Value, parseNumber: string -> Option<real>): (r: Option<OrderModel.OrderItem>)
    ensures r.None? <==>
      || item.Null?
      || SubstringThrows(Json.Get(item, "name")) || SubstringThrows(Json.Get(item, "image"))
      || ToNumber(Json.Get(item, "price"), parseNumber).None?
      || ToNumber(Json.Get(item, "quantity"), parseNumber).None?
    ensures r.Some? ==> r.value.name == (if Json.Nullish(Json.Get(item, "name")) then ""
                                         else JsString.Take(Json.Get(item, "name").value.s, 200))
    ensures r.Some? ==> |r.value.name| <= 200
    ensures r.Some? ==> Some(r.value.price) == ToNumber(Json.Get(item, "price"), parseNumber)
    ensures r.Some? ==> Some(r.value.quantity) == ToNumber(Json.Get(item, "quantity"), parseNumber)
  {
    if item.Null? then None
    else
      var name := Json.Get(item, "name");
      var price := ToNumber(Json.Get(item, "price"), parseNumber);
      var quantity := ToNumber(Json.Get(item, "quantity"), parseNumber);
      var image := Json.Get(item, "image");
      if SubstringThrows(name) || SubstringThrows(image) then None
      else if price.None? || quantity.None? then None
      else
        var n := if Json.Nullish(name) then "" else JsString.Take(name.value.s, 200);
        Some(OrderModel.OrderItem(n, quantity.value, price.value))
  }

  /** An item whose image is a number makes the map throw, so the verification fails whatever
      the rest of the item holds. */
  lemma NumericImageThrows(item: map<string, Json.Value>, n: real, parseNumber: string -> Option<real>)
    ensures ProjectItem(Json.Obj(item["image" := Json.Num(n)]), parseNumber).None?
  {
    assert Json.Get(Json.Obj(item["image" := Json.Num(n)]), "image") == Some(Json.Num(n));
  }

  /** `items.map(...)`: every element projected, in order, or `None` when one fails. */
  function ProjectItems(items: seq<Json.Value>, parseNumber: string -> Option<real>): (r: Option<seq<OrderModel.OrderItem>>)
    ensures r.Some? <==> forall i :: 0 <= i < |items| ==> ProjectItem(items[i], parseNumber).Some?
    ensures r.Some? ==> |r.value| == |items|
    ensures r.Some? ==> forall i :: 0 <= i < |items| ==> r.value[i] == ProjectItem(items[i], parseNumber).value
  {
    if items == [] then Some([])
    else
      var head := ProjectItem(items[0], parseNumber);
      var rest := ProjectItems(items[1..], parseNumber);
      assert forall i :: 1 <= i < |items| ==> items[i] == items[1..][i - 1];
      if head.None? || rest.None? then None else Some([head.value] + rest.value)
  }

  /** The customer fields after sanitisation. */
  datatype Customer = Customer(name: string, email: string, phone: string, address: string, city: string, pincode: string)

  /** `sanitizedCustomerInfo`; `None` when a field holds a value the string methods throw on. */
  function SanitizeCustomer(info: Json.Value): (r: Option<Customer>)
    ensures r.Some? ==> r.value.name != "" && |r.value.name| <= 100
    ensures r.Some? ==> |r.value.email| <= 100 && |r.value.address| <= 500 && |r.value.city| <= 100
    ensures r.Some? ==> JsString.AllDigits(r.value.phone) && |r.value.phone| <= 15
    ensures r.Some? ==> JsString.AllDigits(r.value.pincode) && |r.value.pincode| <= 10
    ensures r.Some? && Json.Nullish(Json.Get(info, "name")) ==> r.value.name == "Anonymous User"
  {
    var name := Sanitized(Json.Get(info, "name"), 100, "Anonymous User");
    var email := Sanitized(Json.Get(info, "email"), 100, "");
    var phone := SanitizedDigits(Json.Get(info, "phone"), 15);
    var address := Sanitized(Json.Get(info, "address"), 500, "");
    var city := Sanitized(Json.Get(info, "city"), 100, "");
    var pincode := SanitizedDigits(Json.Get(info, "pincode"), 10);
    if name.None? || email.None? || phone.None? || address.None? || city.None? || pincode.None? then None
    else Some(Customer(name.value, email.value, phone.value, address.value, city.value, pincode.value))
  }

  /** The document `new Order(orderData)` builds. The schema keeps neither `paymentStatus` nor
      `razorpayOrderId`, so the status is the default "pending". */
  function OrderRecord(id: OrderModel.ObjectId, orderId: string, paymentId: string, amount: real,
                       c: Customer, items: seq<OrderModel.OrderItem>, now: nat): (o: OrderModel.Order)
    ensures o.id == id && o.orderId == orderId && o.paymentId == paymentId && o.total == amount
    ensures o.items == items && o.status == Some(OrderModel.DefaultStatus) && o.customerId.None?
    ensures o.paymentDate == now && o.createdAt == now
    ensures o.customerName == c.name && o.customerPhone == Some(c.phone) && o.customerPincode == Some(c.pincode)
  {
    OrderModel.Order(id, None, c.name, Some(c.email), Some(c.phone), Some(c.address), Some(c.city),
                     Some(c.pincode), orderId, paymentId, now, items, amount, Some(OrderModel.DefaultStatus), now)
  }

  datatype VerifyOutcome =
    | VerifyNotConfigured
    | MissingVerificationData
    | InvalidOrderIdFormat
    | InvalidPaymentIdFormat
    | InvalidSignatureFormat
    | MissingOrderData
    | InvalidAmount
    | AlreadyProcessed(existingOrderId: string)
    | SignatureMismatch
    | NotCaptured(status: string)
    | GatewayAmountMismatch
    | VerifyFailed
    | PaymentVerified(id: OrderModel.ObjectId, orderId: string, paymentId: string, amount: real, status: string)

  function VerifyStatus(r: VerifyOutcome): int {
    match r
    case VerifyNotConfigured => 500
    case VerifyFailed => 500
    case AlreadyProcessed(_) => 409
    case PaymentVerified(_, _, _, _, _) => 200
    case _ => 400
  }

  /** The outcomes decided before the order collection is read. */
  predicate BeforeLookup(r: VerifyOutcome) {
    r.VerifyNotConfigured? || r.MissingVerificationData? || r.InvalidOrderIdFormat?
    || r.InvalidPaymentIdFormat? || r.InvalidSignatureFormat? || r.MissingOrderData? || r.InvalidAmount?
  }

  /** The request-only gates of `verifyPayment`, in source order: configuration, presence of the
      three gateway values, their formats, presence of the order data, and the amount. `None` when
      every one passes. */
  function VerifyGates(client: Option<Client>, body: Json.Value): (r: Option<VerifyOutcome>)
    ensures r.Some? ==> BeforeLookup(r.value)
    ensures r.None? ==> client.Some?
    ensures r.None? ==>
      var oid := Json.Get(body, "razorpay_order_id");
      var pid := Json.Get(body, "razorpay_payment_id");
      var sig := Json.Get(body, "razorpay_signature");
      var amount := Json.Get(body, "amount");
      && oid.Some? && oid.value.Str? && IsGatewayOrderId(oid.value.s)
      && pid.Some? && pid.value.Str? && IsGatewayPaymentId(pid.value.s)
      && sig.Some? && sig.value.Str? && IsSignatureText(sig.value.s)
      && Json.Truthy(Json.Get(body, "customerInfo")) && Json.Truthy(Json.Get(body, "items"))
      && amount.Some? && amount.value.Num? && amount.value.n > 0.0
  {
    var oid := Json.Get(body, "razorpay_order_id");
    var pid := Json.Get(body, "razorpay_payment_id");
    var sig := Json.Get(body, "razorpay_signature");
    var info := Json.Get(body, "customerInfo");
    var items := Json.Get(body, "items");
    var amount := Json.Get(body, "amount");
    if client.None? then Some(VerifyNotConfigured)
    else if !Json.Truthy(oid) || !Json.Truthy(pid) || !Json.Truthy(sig) then Some(MissingVerificationData)
    else if !(oid.value.Str? && IsGatewayOrderId(oid.value.s)) then Some(InvalidOrderIdFormat)
    else if !(pid.value.Str? && IsGatewayPaymentId(pid.value.s)) then Some(InvalidPaymentIdFormat)
    else if !(sig.value.Str? && IsSignatureText(sig.value.s)) then Some(InvalidSignatureFormat)
    else if !Json.Truthy(info) || !Json.Truthy(items) || !Json.Truthy(amount) then Some(MissingOrderData)
    else if !amount.value.Num? || amount.value.n <= 0.0 then Some(InvalidAmount)
    else None
  }

  /** After signature and confirmation: the order id, the sanitised document, and the save. */
  function RecordOrder(body: Json.Value, store: seq<OrderModel.Order>, paymentId: string, amount: real,
                       parseNumber: string -> Option<real>, now: nat, newId: OrderModel.ObjectId)
    : (r: (VerifyOutcome, seq<OrderModel.Order>))
    ensures r.0.PaymentVerified? || r.0.VerifyFailed?
    ensures r.0.VerifyFailed? ==> r.1 == store
    ensures var items := Json.Get(body, "items").GetOr(Json.Null);
      items.Arr? && ProjectItems(items.elems, parseNumber).None? ==> r.0.VerifyFailed?
  {
    var orderId := OrderIdFor(now, paymentId);
    var info := Json.Get(body, "customerInfo").GetOr(Json.Null);
    var items := Json.Get(body, "items").GetOr(Json.Null);
    var customer := SanitizeCustomer(info);
    var lines := if items.Arr? then ProjectItems(items.elems, parseNumber) else None;
    if customer.None? || lines.None? then (VerifyFailed, store)
    else
      var o := OrderRecord(newId, orderId, paymentId, amount, customer.value, lines.value, now);
      var saved := OrderModel.Save(store, o);
      if saved.Saved? then (PaymentVerified(newId, orderId, paymentId, amount, "completed"), saved.store)
      else (VerifyFailed, store)
  }

  /** `verifyPayment` once the client is known. The order collection is `store`; `mac` is the
      HMAC-SHA256 digest of a message under a key, `fetch` the gateway's `payments.fetch`,
      `parseNumber` the `Number` of a string, and `newId` the `_id` Mongo gives the document. */
  function VerifyPayment(client: Option<Client>, env: Env, body: Json.Value, store: seq<OrderModel.Order>,
                         mac: (string, string) -> seq<Hex.byte>, fetch: string -> FetchResult,
                         parseNumber: string -> Option<real>, now: nat, newId: OrderModel.ObjectId)
    : (r: (VerifyOutcome, seq<OrderModel.Order>))
  {
    var gate := VerifyGates(client, body);
    if gate.Some? then (gate.value, store)
    else
      var oid := Json.Get(body, "razorpay_order_id").value.s;
      var pid := Json.Get(body, "razorpay_payment_id").value.s;
      var sig := Json.Get(body, "razorpay_signature").value.s;
      var amount := Json.Get(body, "amount").value.n;
      var existing := OrderModel.FindByPaymentId(store, pid);
      if existing.Some? then (AlreadyProcessed(existing.value.orderId), store)
      else
        var check := CheckSignature(env.keySecret, oid, pid, sig, mac);
        if check == CompareThrew then (VerifyFailed, store)
        else if check == Forged then (SignatureMismatch, store)
        else
          var confirmation := Confirm(fetch(pid), amount);
          if confirmation.NotCapturedStatus? then (NotCaptured(confirmation.status), store)
          else if confirmation.AmountDiffers? then (GatewayAmountMismatch, store)
          else RecordOrder(body, store, pid, amount, parseNumber, now, newId)
  }

  /** Zero writes on every failure path, and exactly one on success: the collection is unchanged
      unless the payment was verified, and then it gained the one order the reply names, stored
      with the schema's default status while the reply says "completed". */
  lemma VerifyWritesAtMostOnce(client: Option<Client>, env: Env, body: Json.Value, store: seq<OrderModel.Order>,
                               mac: (string, string) -> seq<Hex.byte>, fetch: string -> FetchResult,
                               parseNumber: string -> Option<real>, now: nat, newId: OrderModel.ObjectId)
    ensures var r := VerifyPayment(client, env, body, store, mac, fetch, parseNumber, now, newId);
      !r.0.PaymentVerified? ==> r.1 == store
    ensures var r := VerifyPayment(client, env, body, store, mac, fetch, parseNumber, now, newId);
      r.0.PaymentVerified? ==>
        && |r.1| == |store| + 1 && r.1[..|store|] == store
        && r.1[|store|].id == newId == r.0.id
        && r.1[|store|].orderId == r.0.orderId
        && r.1[|store|].paymentId == r.0.paymentId == Json.Get(body, "razorpay_payment_id").value.s
        && r.1[|store|].status == Some("pending") && r.0.status == "completed"
        && r.0.orderId == OrderIdFor(now, r.0.paymentId)
  {
    var r := VerifyPayment(client, env, body, store, mac, fetch, parseNumber, now, newId);
    if r.0.PaymentVerified? {
      assert (store + [r.1[|store|]])[..|store|] == store;
    }
  }

  /** Once the request gates pass, no later step produces one of their replies. */
  lemma AfterGatesNotEarly(client: Option<Client>, env: Env, body: Json.Value, store: seq<OrderModel.Order>,
                           mac: (string, string) -> seq<Hex.byte>, fetch: string -> FetchResult,
                           parseNumber: string -> Option<real>, now: nat, newId: OrderModel.ObjectId)
    ensures VerifyGates(client, body).None? ==>
      !BeforeLookup(VerifyPayment(client, env, body, store, mac, fetch, parseNumber, now, newId).0)
  {
  }

  /** Every gate before the duplicate lookup decides without reading the collection, so the reply
      is the same for any collection, which is left as it was. */
  lemma EarlyGatesIgnoreStore(client: Option<Client>, env: Env, body: Json.Value,
                              s1: seq<OrderModel.Order>, s2: seq<OrderModel.Order>,
                              mac: (string, string) -> seq<Hex.byte>, fetch: string -> FetchResult,
                              parseNumber: string -> Option<real>, now: nat, newId: OrderModel.ObjectId)
    requires BeforeLookup(VerifyPayment(client, env, body, s1, mac, fetch, parseNumber, now, newId).0)
    ensures VerifyPayment(client, env, body, s2, mac, fetch, parseNumber, now, newId)
            == (VerifyPayment(client, env, body, s1, mac, fetch, parseNumber, now, newId).0, s2)
  {
    AfterGatesNotEarly(client, env, body, s1, mac, fetch, parseNumber, now, newId);
  }

  /** A payment id already in the collection gives 409 with that order's id, before the
      signature is looked at: the reply is the same under any HMAC, gateway and clock. */
  lemma DuplicateBeforeSignature(client: Option<Client>, env: Env, body: Json.Value, store: seq<OrderModel.Order>,
                                 mac1: (string, string) -> seq<Hex.byte>, mac2: (string, string) -> seq<Hex.byte>,
                                 fetch1: string -> FetchResult, fetch2: string -> FetchResult,
                                 parse: string -> Option<real>, now1: nat, now2: nat,
                                 id1: OrderModel.ObjectId, id2: OrderModel.ObjectId, i: nat)
    requires VerifyGates(client, body).None?
    requires i < |store| && store[i].paymentId == Json.Get(body, "razorpay_payment_id").value.s
    ensures VerifyPayment(client, env, body, store, mac1, fetch1, parse, now1, id1).0.AlreadyProcessed?
    ensures VerifyPayment(client, env, body, store, mac1, fetch1, parse, now1, id1)
            == VerifyPayment(client, env, body, store, mac2, fetch2, parse, now2, id2)
    ensures VerifyPayment(client, env, body, store, mac1, fetch1, parse, now1, id1).1 == store
  {
  }

  /** Replaying a verified request finds the order the first call saved and is refused with 409
      naming it, whatever the HMAC, gateway and clock do the second time. */
  lemma ReplayIsRefused(client: Option<Client>, env: Env, body: Json.Value, store: seq<OrderModel.Order>,
                        mac: (string, string) -> seq<Hex.byte>, fetch: string -> FetchResult,
                        parse: string -> Option<real>, now: nat, newId: OrderModel.ObjectId,
                        mac2: (string, string) -> seq<Hex.byte>, fetch2: string -> FetchResult,
                        now2: nat, newId2: OrderModel.ObjectId)
    requires VerifyPayment(client, env, body, store, mac, fetch, parse, now, newId).0.PaymentVerified?
    ensures var first := VerifyPayment(client, env, body, store, mac, fetch, parse, now, newId);
      VerifyPayment(client, env, body, first.1, mac2, fetch2, parse, now2, newId2)
        == (AlreadyProcessed(first.0.orderId), first.1)
  {
    var first := VerifyPayment(client, env, body, store, mac, fetch, parse, now, newId);
    var pid := Json.Get(body, "razorpay_payment_id").value.s;
    VerifyWritesAtMostOnce(client, env, body, store, mac, fetch, parse, now, newId);
    var s := first.1;
    assert OrderModel.FindByPaymentId(store, pid).None?;
    var k := Collections.FirstIndex(s, OrderModel.HasPaymentId(pid));
    assert OrderModel.HasPaymentId(pid)(s[|store|]);
    assert forall j :: 0 <= j < |store| ==> s[j] == store[j];
    assert k.Some? && k.value == |store|;
  }

  /** A verified payment carries a signature that is the hex HMAC of `orderId|paymentId` under the
      secret, and the gateway either could not be reached or reported it captured for the same
      amount within 0.01. */
  lemma VerifiedIsAuthentic(client: Option<Client>, env: Env, body: Json.Value, store: seq<OrderModel.Order>,
                            mac: (string, string) -> seq<Hex.byte>, fetch: string -> FetchResult,
                            parse: string -> Option<real>, now: nat, newId: OrderModel.ObjectId)
    requires VerifyPayment(client, env, body, store, mac, fetch, parse, now, newId).0.PaymentVerified?
    ensures var oid := Json.Get(body, "razorpay_order_id").value.s;
      var pid := Json.Get(body, "razorpay_payment_id").value.s;
      var amount := Json.Get(body, "amount").value.n;
      && env.keySecret.Some?
      && Hex.Encode(mac(env.keySecret.value, oid + "|" + pid)) == Json.Get(body, "razorpay_signature").value.s
      && (fetch(pid).FetchThrew? || (fetch(pid).status == "captured" && Abs(fetch(pid).paise as real / 100.0 - amount) <= 0.01))
      && (forall i :: 0 <= i < |store| ==> store[i].paymentId != pid)
  {
  }

  /** The gateway fetch is best effort: when it throws, the result is what it would be had the
      gateway confirmed the payment. */
  lemma FetchErrorIsIgnored(client: Option<Client>, env: Env, body: Json.Value, store: seq<OrderModel.Order>,
                            mac: (string, string) -> seq<Hex.byte>, fetch: string -> FetchResult,
                            confirming: string -> FetchResult,
                            parse: string -> Option<real>, now: nat, newId: OrderModel.ObjectId)
    requires VerifyGates(client, body).None?
    requires fetch(Json.Get(body, "razorpay_payment_id").value.s).FetchThrew?
    requires Confirm(confirming(Json.Get(body, "razorpay_payment_id").value.s), Json.Get(body, "amount").value.n).Confirmed?
    ensures VerifyPayment(client, env, body, store, mac, fetch, parse, now, newId)
            == VerifyPayment(client, env, body, store, mac, confirming, parse, now, newId)
  {
  }

  /** `verifyPayment`: initialises the client through the cache, then decides. */
  method VerifyPaymentRequest(cache: GatewayCache, env: Env, body: Json.Value, store: seq<OrderModel.Order>,
                              mac: (string, string) -> seq<Hex.byte>, fetch: string -> FetchResult,
                              parseNumber: string -> Option<real>, now: nat, newId: OrderModel.ObjectId)
    returns (outcome: VerifyOutcome, newStore: seq<OrderModel.Order>)
    modifies cache
    ensures cache.client == InitStep(old(cache.client), env)
    ensures (outcome, newStore) == VerifyPayment(cache.client, env, body, store, mac, fetch, parseNumber, now, newId)
  {
    var client := cache.Initialize(env);
    var r := VerifyPayment(client, env, body, store, mac, fetch, parseNumber, now, newId);
    outcome, newStore := r.0, r.1;
  }
}
