/**
 * The gem economy of `app.py`: the in-memory user ledger `USERS`, the
 * payment records `PAYMENTS`, the static catalogs, and the check-then-mutate
 * rules of the HTTP handlers, each handler one atomic step of a `Store`.
 */
module Ledger {
  import opened Wrappers
  import opened Strings
  import InitData

  datatype Status = Pending | Succeeded

  /** `{"gems": int, "premium_items": set()}`. */
  datatype User = User(gems: int, items: set<string>)

  /** `{"status": ..., "uid": int, "gems": int, "pack": str}`. */
  datatype Payment = Payment(status: Status, uid: int, gems: int, pack: string)

  /** A gem pack: price in roubles, gems granted, display title. */
  datatype Pack = Pack(rub: nat, gems: nat, title: string)

  const PACKS: map<string, Pack> := map[
    "gems_100" := Pack(99, 100, "100 Gems"),
    "gems_300" := Pack(249, 320, "300 Gems (+20)"),
    "gems_600" := Pack(449, 660, "600 Gems (+60)")]

  /** Premium items and their prices in gems. */
  const PREMIUM_ITEMS: map<string, nat> := map["aura_neon" := 80, "skin_dragon" := 120]

  const DEFAULT_PACK := "gems_100"
  const MAX_GRANT := 10000
  const NEW_USER := User(0, {})
  const SUCCEEDED_EVENT := "payment.succeeded"
  const FALLBACK_RETURN_URL := "https://t.me"

  /**
   * A key of `PAYMENTS`: a provider payment id, or `None` for the record a
   * webhook without `object.id` stores under Python's `None`.
   */
  type PaymentId = Option<string>

  /** An error reply: HTTP status and the `error` field of the JSON body. */
  datatype Failure = Failure(status: nat, error: string)
  datatype Result<T> = Ok(value: T) | Err(failure: Failure)

  datatype ProfileView = ProfileView(gems: int, items: set<string>, isOwner: bool)
  datatype Inventory = Inventory(gems: int, items: set<string>)
  datatype Checkout = Checkout(paymentId: string, confirmationUrl: string)
  datatype PaymentView = PaymentView(status: Status, gems: int)

  /** The payment-creation request sent to the provider (`yk_create_payment`'s payload). */
  datatype PaymentRequest = PaymentRequest(
    amountValue: string, currency: string, capture: bool, description: string,
    confirmationType: string, returnUrl: string, metaUid: int, metaPackId: string)

  /** What the provider answers: the new payment, or an error status with its raw body. */
  datatype GatewayReply = Created(id: string, confirmationUrl: string) | Failed(body: string)

  // ----- authentication of a handler's caller -----

  /**
   * `parse_uid(pairs)`: the `id` of the JSON object in the `user` field, or
   * `None` when the field is absent or blank. `readId` stands for
   * `json.loads(s).get("id")` with its exceptions turned into `None`.
   */
  function ParseUid(fields: map<string, string>, readId: string -> Option<int>): (uid: Option<int>)
    ensures "user" !in fields ==> uid == None
    ensures "user" in fields && fields["user"] == "" ==> uid == None
    ensures "user" in fields && fields["user"] != "" ==> uid == readId(fields["user"])
  {
    if "user" !in fields || fields["user"] == "" then None else readId(fields["user"])
  }

  /**
   * The opening lines every authenticated handler shares: 401 unless the
   * init data verifies to a non-empty field map, 400 unless it names a
   * non-zero user id; an exception of the verifier becomes a 500.
   */
  function Authenticate(initData: string, token: string, lib: InitData.Library,
                        readId: string -> Option<int>): (caller: Result<int>)
    ensures caller.Ok? ==>
              caller.value != 0 &&
              var v := InitData.Validate(initData, token, lib);
              v.Accepted? && v.fields != map[] && ParseUid(v.fields, readId) == Some(caller.value)
    ensures InitData.Validate(initData, token, lib) == InitData.Rejected ==>
              caller == Err(Failure(401, "invalid init_data"))
    ensures InitData.Validate(initData, token, lib) == InitData.Accepted(map[]) ==>
              caller == Err(Failure(401, "invalid init_data"))
    ensures var v := InitData.Validate(initData, token, lib);
            v.Accepted? && v.fields != map[] && ParseUid(v.fields, readId) in {None, Some(0)} ==>
              caller == Err(Failure(400, "no user"))
    ensures var v := InitData.Validate(initData, token, lib);
            v.Accepted? && v.fields != map[] && ParseUid(v.fields, readId).Some? &&
            ParseUid(v.fields, readId).value != 0 ==>
              caller == Ok(ParseUid(v.fields, readId).value)
    ensures InitData.Validate(initData, token, lib).Raised? ==>
              caller == Err(Failure(500, "internal server error"))
  {
    match InitData.Validate(initData, token, lib)
    case Raised => Err(Failure(500, "internal server error"))
    case Rejected => Err(Failure(401, "invalid init_data"))
    case Accepted(fields) =>
      if fields == map[] then Err(Failure(401, "invalid init_data"))
      else
        match ParseUid(fields, readId)
        case None => Err(Failure(400, "no user"))
        case Some(uid) => if uid == 0 then Err(Failure(400, "no user")) else Ok(uid)
  }

  /** A request without a valid signature never reaches a handler's body. */
  lemma UnsignedRequestUnauthorized(initData: string, token: string, lib: InitData.Library,
                                    readId: string -> Option<int>)
    requires InitData.DigestSized(lib)
    requires "hash" !in InitData.Parsed(initData, lib)
    ensures Authenticate(initData, token, lib, readId) == Err(Failure(401, "invalid init_data"))
  {
    InitData.MissingHashRejected(initData, token, lib);
  }

  // ----- the ledger as maps -----

  /** The record `get_user(uid)` returns: the stored one, or a fresh one with no gems and no items. */
  function Lookup(users: map<int, User>, uid: int): (u: User)
    ensures uid in users ==> u == users[uid]
    ensures uid !in users ==> u.gems == 0 && u.items == {}
  {
    if uid in users then users[uid] else NEW_USER
  }

  /** `USERS` after `get_user(uid)`: a missing user is created, nothing else changes. */
  function Touch(users: map<int, User>, uid: int): (r: map<int, User>)
    ensures r.Keys == users.Keys + {uid}
    ensures r[uid] == Lookup(users, uid)
    ensures forall k :: k in users ==> r[k] == users[k]
  {
    if uid in users then users else users[uid := NEW_USER]
  }

  /** `get_user(uid)["gems"] += amount`: only `uid`'s balance moves, and by exactly `amount`. */
  function Credit(users: map<int, User>, uid: int, amount: int): (r: map<int, User>)
    ensures r.Keys == users.Keys + {uid}
    ensures r[uid].gems == Lookup(users, uid).gems + amount
    ensures r[uid].items == Lookup(users, uid).items
    ensures forall k :: k in users && k != uid ==> r[k] == users[k]
  {
    var u := Lookup(users, uid);
    users[uid := u.(gems := u.gems + amount)]
  }

  /** Two credits to one user are one credit of the sum. */
  lemma CreditTwice(users: map<int, User>, uid: int, a: int, b: int)
    ensures Credit(Credit(users, uid, a), uid, b) == Credit(users, uid, a + b)
  {
    var once, both := Credit(Credit(users, uid, a), uid, b), Credit(users, uid, a + b);
    assert once.Keys == both.Keys;
    assert once[uid] == both[uid];
  }

  /** No balance is negative. */
  predicate NonNegative(users: map<int, User>)
  {
    forall uid :: uid in users ==> users[uid].gems >= 0
  }

  /** Every payment record names a catalog pack and carries that pack's gems. */
  predicate WellFormed(payments: map<PaymentId, Payment>)
  {
    forall pid :: pid in payments ==>
      payments[pid].pack in PACKS && payments[pid].gems == PACKS[payments[pid].pack].gems
  }

  lemma CreditKeepsNonNegative(users: map<int, User>, uid: int, amount: int)
    requires NonNegative(users) && amount >= 0
    ensures NonNegative(Credit(users, uid, amount))
  {
  }

  // ----- catalog lookups and the payment request -----

  /** `PREMIUM_ITEMS.get(item_id)`. */
  function ItemCost(itemId: Option<string>): (cost: Option<nat>)
    ensures cost.Some? <==> itemId.Some? && itemId.value in PREMIUM_ITEMS
    ensures cost.Some? ==> cost.value == PREMIUM_ITEMS[itemId.value] && cost.value > 0
  {
    if itemId.Some? && itemId.value in PREMIUM_ITEMS then Some(PREMIUM_ITEMS[itemId.value]) else None
  }

  /** `body.get("pack", "gems_100")`. */
  function PackChoice(pack: Option<string>): (packId: string)
    ensures pack.Some? ==> packId == pack.value
    ensures pack.None? ==> packId == DEFAULT_PACK && packId in PACKS
  {
    if pack.Some? then pack.value else DEFAULT_PACK
  }

  /** The return URL: `PUBLIC_BASE + "/thankyou"`, or Telegram itself when no base is set. */
  function ReturnUrl(publicBase: string): (url: string)
    ensures publicBase == "" ==> url == FALLBACK_RETURN_URL
    ensures publicBase != "" ==> |url| == |publicBase| + 9
    ensures publicBase != "" ==> url[..|publicBase|] == publicBase && url[|publicBase|..] == "/thankyou"
  {
    if publicBase == "" then FALLBACK_RETURN_URL else publicBase + "/thankyou"
  }

  /** `f"{amount_rub}.00"`: the decimal digits of the amount followed by `.00`. */
  function AmountValue(rub: nat): (s: string)
    ensures |s| >= 4 && s[|s| - 3..] == ".00"
    ensures IsDigits(s[..|s| - 3]) && DigitsValue(s[..|s| - 3]) == rub
    ensures s[0] == '0' <==> rub == 0
    ensures rub == 0 ==> |s| == 4
  {
    var digits := Decimal(rub);
    DecimalValue(rub);
    assert (digits + ".00")[..|digits|] == digits;
    digits + ".00"
  }

  /** The request `api_create_yk_payment` sends for a pack through `yk_create_payment`. */
  function PaymentRequestFor(uid: int, packId: string, publicBase: string): (req: PaymentRequest)
    requires packId in PACKS
    ensures req.amountValue == AmountValue(PACKS[packId].rub) && req.currency == "RUB"
    ensures req.returnUrl == ReturnUrl(publicBase)
    ensures req.metaUid == uid && req.metaPackId == packId
  {
    PaymentRequest(AmountValue(PACKS[packId].rub), "RUB", true, "Tamagocho: " + PACKS[packId].title,
                   "redirect", ReturnUrl(publicBase), uid, packId)
  }

  // ----- the store -----

  class Store {
    var users: map<int, User>
    var payments: map<PaymentId, Payment>
    const ownerId: int
    const publicBase: string
    const shopId: Option<string>
    const secretKey: Option<string>

    ghost predicate Valid()
      reads this
    {
      NonNegative(users) && WellFormed(payments)
    }

    /** `YK_SHOP_ID and YK_SECRET_KEY`: both set and non-empty. */
    predicate Configured(): (r: bool)
      ensures !r <==> shopId in {None, Some("")} || secretKey in {None, Some("")}
    {
      shopId.Some? && shopId.value != "" && secretKey.Some? && secretKey.value != ""
    }

    /** The process at start-up: no users, no payments; `PUBLIC_BASE` loses its trailing slashes. */
    constructor (ownerId: int, publicBase: string, shopId: Option<string>, secretKey: Option<string>)
      ensures Valid()
      ensures users == map[] && payments == map[]
      ensures this.ownerId == ownerId && this.publicBase == TrimRight(publicBase, '/')
      ensures this.shopId == shopId && this.secretKey == secretKey
    {
      users := map[];
      payments := map[];
      this.ownerId := ownerId;
      this.publicBase := TrimRight(publicBase, '/');
      this.shopId := shopId;
      this.secretKey := secretKey;
    }

    /** `get_user(uid)`. */
    method GetUser(uid: int) returns (u: User)
      requires Valid()
      modifies this
      ensures Valid()
      ensures u == Lookup(old(users), uid)
      ensures users == Touch(old(users), uid) && payments == old(payments)
    {
      if uid in users {
        u := users[uid];
      } else {
        u := NEW_USER;
        users := users[uid := u];
      }
    }

    /** `api_profile`, after authentication. */
    method Profile(caller: Result<int>) returns (r: Result<ProfileView>)
      requires Valid()
      modifies this
      ensures Valid() && payments == old(payments)
      ensures caller.Err? ==> r == Err(caller.failure) && users == old(users)
      ensures caller.Ok? ==>
                var u := Lookup(old(users), caller.value);
                r == Ok(ProfileView(u.gems, u.items, caller.value == ownerId)) &&
                users == Touch(old(users), caller.value)
    {
      if caller.Err? {
        return Err(caller.failure);
      }
      var uid := caller.value;
      var u := GetUser(uid);
      r := Ok(ProfileView(u.gems, u.items, uid == ownerId));
    }

    /** `api_buy_premium`, after authentication. */
    method BuyPremium(caller: Result<int>, itemId: Option<string>) returns (r: Result<Inventory>)
      requires Valid()
      modifies this
      ensures Valid() && payments == old(payments)
      ensures caller.Err? ==> r == Err(caller.failure) && users == old(users)
      ensures caller.Ok? && ItemCost(itemId).None? ==>
                r == Err(Failure(400, "unknown item")) && users == old(users)
      ensures caller.Ok? && ItemCost(itemId).Some? ==>
                var uid, before, cost := caller.value, Lookup(old(users), caller.value), ItemCost(itemId).value;
                if before.gems < cost then
                  r == Err(Failure(200, "not_enough_gems")) && users == Touch(old(users), uid)
                else
                  var after := User(before.gems - cost, before.items + {itemId.value});
                  r == Ok(Inventory(after.gems, after.items)) && users == old(users)[uid := after]
    {
      if caller.Err? {
        return Err(caller.failure);
      }
      var uid := caller.value;
      var cost := ItemCost(itemId);
      if cost.None? || cost.value == 0 {
        return Err(Failure(400, "unknown item"));
      }
      var u := GetUser(uid);
      if u.gems < cost.value {
        return Err(Failure(200, "not_enough_gems"));
      }
      u := u.(gems := u.gems - cost.value);
      u := u.(items := u.items + {itemId.value});
      users := users[uid := u];
      r := Ok(Inventory(u.gems, u.items));
    }

    /**
     * `api_admin_grant_gems`, after authentication: the owner's id is checked
     * before the amount. `amount` is `int(body.get("amount", 0))`: 0 when the
     * field is missing, and a JSON number truncated toward zero (10000.9 is 10000).
     */
    method AdminGrantGems(caller: Result<int>, amount: int) returns (r: Result<int>)
      requires Valid()
      modifies this
      ensures Valid() && payments == old(payments)
      ensures caller.Err? ==> r == Err(caller.failure) && users == old(users)
      ensures caller.Ok? && caller.value != ownerId ==>
                r == Err(Failure(403, "forbidden")) && users == old(users)
      ensures caller.Ok? && caller.value == ownerId && (amount <= 0 || amount > MAX_GRANT) ==>
                r == Err(Failure(400, "bad_amount")) && users == old(users)
      ensures caller.Ok? && caller.value == ownerId && 0 < amount <= MAX_GRANT ==>
                r == Ok(Lookup(old(users), ownerId).gems + amount) &&
                users == Credit(old(users), ownerId, amount)
    {
      if caller.Err? {
        return Err(caller.failure);
      }
      var uid := caller.value;
      if uid != ownerId {
        return Err(Failure(403, "forbidden"));
      }
      if amount <= 0 || amount > MAX_GRANT {
        return Err(Failure(400, "bad_amount"));
      }
      var u := GetUser(uid);
      u := u.(gems := u.gems + amount);
      users := users[uid := u];
      r := Ok(u.gems);
    }

    /**
     * `api_create_yk_payment`, after authentication. `gateway` is the
     * provider's answer to the request it is sent; a record is stored only
     * when the provider created the payment.
     */
    method CreatePayment(caller: Result<int>, pack: Option<string>,
                         gateway: PaymentRequest -> GatewayReply) returns (r: Result<Checkout>)
      requires Valid()
      modifies this
      ensures Valid() && users == old(users)
      ensures caller.Err? ==> r == Err(caller.failure) && payments == old(payments)
      ensures caller.Ok? && PackChoice(pack) !in PACKS ==>
                r == Err(Failure(400, "unknown pack")) && payments == old(payments)
      ensures caller.Ok? && PackChoice(pack) in PACKS && !Configured() ==>
                r == Err(Failure(500, "yookassa_not_configured")) && payments == old(payments)
      ensures caller.Ok? && PackChoice(pack) in PACKS && Configured() ==>
                var packId := PackChoice(pack);
                match gateway(PaymentRequestFor(caller.value, packId, publicBase))
                case Failed(body) =>
                  r == Err(Failure(400, body)) && payments == old(payments)
                case Created(id, url) =>
                  r == Ok(Checkout(id, url)) &&
                  payments == old(payments)[Some(id) := Payment(Pending, caller.value, PACKS[packId].gems, packId)]
    {
      if caller.Err? {
        return Err(caller.failure);
      }
      var uid := caller.value;
      var packId := PackChoice(pack);
      if packId !in PACKS {
        return Err(Failure(400, "unknown pack"));
      }
      if !Configured() {
        return Err(Failure(500, "yookassa_not_configured"));
      }
      var reply := gateway(PaymentRequestFor(uid, packId, publicBase));
      match reply
      case Failed(body) =>
        r := Err(Failure(400, body));
      case Created(id, url) =>
        payments := payments[Some(id) := Payment(Pending, uid, PACKS[packId].gems, packId)];
        r := Ok(Checkout(id, url));
    }

    /** `api_check_payment`: reads the stored status; the payer's user record may be created. */
    method CheckPayment(pid: Option<string>) returns (r: Result<PaymentView>)
      requires Valid()
      modifies this
      ensures Valid() && payments == old(payments)
      ensures pid in {None, Some("")} ==>
                r == Err(Failure(400, "no_payment_id")) && users == old(users)
      ensures pid !in {None, Some("")} && pid !in old(payments) ==>
                r == Err(Failure(404, "not_found")) && users == old(users)
      ensures pid !in {None, Some("")} && pid in old(payments) ==>
                var rec := old(payments)[pid];
                r == Ok(PaymentView(rec.status, Lookup(old(users), rec.uid).gems)) &&
                users == Touch(old(users), rec.uid)
    {
      if pid.None? || pid.value == "" {
        return Err(Failure(400, "no_payment_id"));
      }
      if pid !in payments {
        return Err(Failure(404, "not_found"));
      }
      var info := payments[pid];
      var u := GetUser(info.uid);
      r := Ok(PaymentView(info.status, u.gems));
    }

    /**
     * `yk_webhook`. `metaUid` is `int(metadata["uid"])` (a JSON number
     * truncated toward zero), or 0 when the field is missing or falsy. A known record is marked succeeded and its own user
     * credited with its gems on EVERY delivery: there is no pending check.
     */
    method Webhook(event: Option<string>, pid: PaymentId, metaUid: int, packId: Option<string>)
      requires Valid()
      modifies this
      ensures Valid()
      ensures event != Some(SUCCEEDED_EVENT) ==> users == old(users) && payments == old(payments)
      ensures event == Some(SUCCEEDED_EVENT) && pid in old(payments) ==>
                var rec := old(payments)[pid];
                payments == old(payments)[pid := rec.(status := Succeeded)] &&
                users == Credit(old(users), rec.uid, rec.gems)
      ensures event == Some(SUCCEEDED_EVENT) && pid !in old(payments) &&
              metaUid != 0 && packId.Some? && packId.value in PACKS ==>
                var gems := PACKS[packId.value].gems;
                payments == old(payments)[pid := Payment(Succeeded, metaUid, gems, packId.value)] &&
                users == Credit(old(users), metaUid, gems)
      ensures event == Some(SUCCEEDED_EVENT) && pid !in old(payments) &&
              !(metaUid != 0 && packId.Some? && packId.value in PACKS) ==>
                users == old(users) && payments == old(payments)
    {
      if event == Some(SUCCEEDED_EVENT) {
        if pid in payments {
          var pay := payments[pid];
          payments := payments[pid := pay.(status := Succeeded)];
          users := Credit(users, pay.uid, pay.gems);
        } else if metaUid != 0 && packId.Some? && packId.value in PACKS {
          var gems := PACKS[packId.value].gems;
          users := Credit(users, metaUid, gems);
          payments := payments[pid := Payment(Succeeded, metaUid, gems, packId.value)];
        }
      }
    }
  }

  // ----- what callers of the store can rely on -----

  /** A redelivered `payment.succeeded` for a known payment credits its user a second time. */
  method RedeliveryCreditsTwice(s: Store, pid: PaymentId)
    requires s.Valid() && pid in s.payments
    modifies s
    ensures s.Valid() && pid in s.payments
    ensures var rec := old(s.payments[pid]);
            s.payments[pid].status == Succeeded &&
            Lookup(s.users, rec.uid).gems == Lookup(old(s.users), rec.uid).gems + 2 * rec.gems
  {
    var rec := s.payments[pid];
    s.Webhook(Some(SUCCEEDED_EVENT), pid, 0, None);
    assert s.payments[pid] == rec.(status := Succeeded);
    s.Webhook(Some(SUCCEEDED_EVENT), pid, 0, None);
  }

  /** A payment the provider created reads back as pending, with the payer's current balance. */
  method CreatedPaymentIsPending(s: Store, uid: int, pack: Option<string>,
                                 gateway: PaymentRequest -> GatewayReply) returns (view: Result<PaymentView>)
    requires s.Valid() && s.Configured() && PackChoice(pack) in PACKS
    requires gateway(PaymentRequestFor(uid, PackChoice(pack), s.publicBase)).Created?
    requires gateway(PaymentRequestFor(uid, PackChoice(pack), s.publicBase)).id != ""
    modifies s
    ensures s.Valid()
    ensures view == Ok(PaymentView(Pending, Lookup(old(s.users), uid).gems))
  {
    var c := s.CreatePayment(Ok(uid), pack, gateway);
    view := s.CheckPayment(Some(c.value.paymentId));
  }

  /**
   * Buying with too few gems fails; after a grant of 100 the purchase leaves
   * 20 gems and the item; buying the owned item again still charges its price.
   */
  method PurchaseScenario()
  {
    var s := new Store(42, "", None, None);
    var r := s.BuyPremium(Ok(42), Some("aura_neon"));
    assert r == Err(Failure(200, "not_enough_gems"));
    var g := s.AdminGrantGems(Ok(42), 100);
    assert g == Ok(100);
    assert Lookup(s.users, 42) == User(100, {});
    assert ItemCost(Some("aura_neon")) == Some(80);
    r := s.BuyPremium(Ok(42), Some("aura_neon"));
    var none: set<string> := {};
    assert none + {"aura_neon"} == {"aura_neon"};
    assert r == Ok(Inventory(20, {"aura_neon"}));
    g := s.AdminGrantGems(Ok(42), 60);
    r := s.BuyPremium(Ok(42), Some("aura_neon"));
    assert {"aura_neon"} + {"aura_neon"} == {"aura_neon"};
    assert r == Ok(Inventory(0, {"aura_neon"}));
  }

  /** The grant limit is inclusive, and a non-owner is refused whatever the amount. */
  method GrantScenario()
  {
    var s := new Store(7, "", None, None);
    var g := s.AdminGrantGems(Ok(7), 10001);
    assert g == Err(Failure(400, "bad_amount"));
    g := s.AdminGrantGems(Ok(7), 10000);
    assert g == Ok(10000);
    g := s.AdminGrantGems(Ok(8), 10001);
    assert g == Err(Failure(403, "forbidden"));
  }

  /**
   * A created payment reads as pending; each webhook delivery then adds the
   * record's gems to the record's user, whatever uid and pack the metadata names.
   */
  method PaymentScenario()
  {
    var s := new Store(1, "https://game.example/", Some("shop"), Some("key"));
    var c := s.CreatePayment(Ok(5), None, req => Created("p1", "https://pay.example/p1"));
    assert c == Ok(Checkout("p1", "https://pay.example/p1"));
    assert s.payments == map[Some("p1") := Payment(Pending, 5, 100, "gems_100")];
    var v := s.CheckPayment(Some("p1"));
    assert v == Ok(PaymentView(Pending, 0));
    s.Webhook(Some(SUCCEEDED_EVENT), Some("p1"), 5, Some("gems_100"));
    v := s.CheckPayment(Some("p1"));
    assert v == Ok(PaymentView(Succeeded, 100));
    s.Webhook(Some(SUCCEEDED_EVENT), Some("p1"), 9, Some("gems_600"));
    v := s.CheckPayment(Some("p1"));
    assert v == Ok(PaymentView(Succeeded, 200));
  }
}
