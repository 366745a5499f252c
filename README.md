# Tamagocho backend: init-data verification and the gem ledger, in Dafny

This project models the two parts of the Tamagocho Telegram Mini App backend
that do real work.

- **Init-data verification** (`auth.py`). This is how a backend checks
  Telegram's Mini App launch data. The query string is split on `&` and `=`,
  and each component is decoded. A dict keeps the last value of every key.
  The `hash` field is popped. The other fields are written as `k=v` lines in
  ascending key order, joined by `\n`. The popped hash is then compared with
  `hex(HMAC-SHA256(HMAC-SHA256("WebAppData", bot_token), data_check_string))`,
  where HMAC is the construction of RFC 2104. The model is in
  `init_data.dfy`, with string helpers in `strings.dfy`. It is written as
  pure functions and lemmas, because `validate_init_data` is a single
  expression pipeline.
- **The gem economy** (`app.py`). This covers the process-wide maps `USERS`
  (uid to gems and a set of premium items) and `PAYMENTS` (payment id to
  status, uid, gems and pack), the catalogs `PACKS` and `PREMIUM_ITEMS`, and
  the check-then-mutate rules of the handlers. `ledger.dfy` models them as a
  class `Store` with two `map` fields. Each HTTP handler is a method. The
  user-facing ones return an `Ok` value or a `Failure(status, error)`. The
  provider's webhook, whose reply is always `{"ok": true}`, returns nothing.
  Every handler's `ensures` clauses give the whole new state for every
  branch. The invariant `Valid()` says that no
  balance is negative and that every payment record carries its catalog
  pack's gems.

Library code that the model does not open up is passed in as parameters:

- percent-decoding, `str.encode` and HMAC-SHA256 are the fields of `InitData.Library`;
- `json.loads(user).get("id")` is the `readId` argument;
- the YooKassa gateway is a function from the request sent to the reply received.

Hex rendering is concrete: two lowercase digits per byte. So the statement
"input without a hash is rejected" needs only one assumption about HMAC,
`DigestSized`, which says every tag is 32 bytes long.

`Validate` is a Dafny function. So verification is deterministic by
construction: the same `(init_data, token)` always gives the same verdict.

Some of the code's behaviour differs from what a reader of the handlers might
expect. The model follows the code:

- **No pending check in the webhook.** `yk_webhook` (app.py:162-166) marks a
  known payment `succeeded` and credits the record's own uid with the
  record's gems on every delivery. An at-most-once webhook would check that
  the record is still `pending` before crediting; this code does not. `Store.Webhook` states the real
  behaviour. `RedeliveryCreditsTwice` shows that two deliveries credit twice,
  and `PaymentScenario` shows the balance going from 0 to 100 to 200.
- **`compare_digest` can raise.** For `str` arguments, `hmac.compare_digest`
  raises `TypeError` when either string holds a non-ASCII character. A
  `hash` value with such a character therefore makes `validate_init_data`
  raise instead of returning `None`. The model has this as `Verdict.Raised`,
  and `Authenticate` turns it into a 500.
- **An accepted but empty field map is refused.** Handlers test
  `if not pairs`. So init data whose only field is a correct `hash` is
  answered with 401, like a bad signature.
- **`check_payment` writes to `USERS`.** It calls `get_user` on the record's
  uid, which creates that user if it is missing. `PAYMENTS` is never changed.
- **A webhook with no `object.id` can store a record under the key `None`.**
  This happens when the metadata names a uid and a pack. For this reason
  payment keys are `Option<string>`.

## Model

| member | source | states |
|---|---|---|
| `Strings.Split` | auth.py:6 | `str.split('&')` as `parse_qsl` uses it: at least one piece, and no piece contains the separator |
| `Strings.Join` | auth.py:8 | `"\n".join`: the empty list gives `""`, and the result starts with the first piece |
| `Strings.JoinSplit` | auth.py:6 | joining the pieces of a split gives back the original string |
| `Strings.SplitJoin` | auth.py:8 | splitting a join of separator-free pieces gives back exactly those pieces |
| `Strings.Below` | auth.py:8 | Python's `<` on `str`: a proper prefix is below, nothing is below one of its own prefixes, and otherwise the first differing character decides |
| `Strings.BelowIrreflexive` | auth.py:8 | Python's `str` order used by `sorted` is irreflexive |
| `Strings.BelowTransitive` | auth.py:8 | Python's `str` order is transitive |
| `Strings.BelowTotal` | auth.py:8 | any two distinct strings are ordered one way or the other |
| `Strings.Insert` | auth.py:8 | inserting a key keeps a key list ascending, and the elements are the old ones plus the key |
| `Strings.AscendingUnique` | auth.py:8 | two ascending lists with the same elements are equal, so `sorted(keys)` is canonical |
| `Strings.TrimRight` | app.py:9 | `rstrip("/")`: the result is a prefix, has no trailing `/`, and only `/` characters were removed |
| `Strings.Decimal` | app.py:69 | `f"{n}"`: at least one decimal digit, with a leading `0` exactly when `n == 0`, and a single digit below 10 (so `f"{0}"` is `"0"`) |
| `Strings.DecimalValue` | app.py:69 | reading the digits of `f"{n}"` back gives `n` |
| `InitData.PlusToSpace` | auth.py:6 | the `+` to space step of query decoding changes no other character and keeps the length |
| `InitData.FormDecode` | auth.py:6 | a component without `+` is decoded by `unquote` alone |
| `InitData.PlusDecodesAsSpace` | auth.py:6 | a component decodes as its `+`-to-space replacement does, so decoding is `unquote` applied after the replacement |
| `InitData.SplitField` | auth.py:6 | `split('=', 1)`: the name has no `=`, and name + `=` + value is the field; a field without `=` gets a blank value |
| `InitData.SplitFieldAt` | auth.py:6 | the first `=` of a field separates the name from the value |
| `InitData.DecodeField` | auth.py:6 | a field decodes to the decoded text before its first `=` and after it, or to the decoded field and a blank value when it has no `=` |
| `InitData.DecodeFields` | auth.py:6 | when no piece is empty, every piece gives one decoded pair, in order |
| `InitData.EmptyPieceSkipped` | auth.py:6 | an empty piece anywhere in the list, from `&&` or a leading or trailing `&`, adds no pair; with `DecodeFields` this fixes the result for every list |
| `InitData.ParseQsl` | auth.py:6 | `parse_qsl` of `""` is empty, and a query without `&` is one decoded field |
| `InitData.ParseJoined` | auth.py:6 | a non-empty query joined from `&`-free fields parses as `DecodeFields` of those fields, empty ones skipped; with no empty field, one decoded pair per field, in order; every query is such a join of its own `Split` |
| `InitData.Parsed` | auth.py:6 | the dict of `""` is empty, and a query without `&` gives a dict with exactly its one decoded field |
| `InitData.ToMap` | auth.py:6 | `dict(pairs)` has exactly the keys that occur in the pair list |
| `InitData.LastOccurrenceWins` | auth.py:6 | a repeated key is bound to the value of its last occurrence |
| `InitData.SortedKeys` | auth.py:7-8 | the keys of the dict other than `hash`, in strictly ascending order |
| `InitData.Lines` | auth.py:8 | one `k=v` line for each listed key, in the listed order |
| `InitData.DataCheckString` | auth.py:8 | the data-check string of no fields is `""` |
| `InitData.DataCheckLines` | auth.py:8 | when no key or value holds a newline, the data-check string splits back into exactly its `k=v` lines, so there is no trailing newline |
| `InitData.WebAppDataBytes` | auth.py:9 | the HMAC key bytes are the ASCII codes of `WebAppData` |
| `InitData.Hex` | auth.py:10 | `hexdigest()` gives two lowercase hex digits per byte |
| `InitData.UnhexHex` | auth.py:10 | hex rendering is injective: decoding it returns the digest |
| `InitData.HexIsAscii` | auth.py:10-11 | the computed digest is ASCII, so it can never be the cause of a `compare_digest` error |
| `InitData.Signature` | auth.py:9-10 | the computed hash is ASCII lowercase hex, it decodes back to HMAC(HMAC("WebAppData", token), data-check string), and it is 64 characters long for a 32-byte HMAC |
| `InitData.GivenHash` | auth.py:7-11 | the popped `hash` value, or `""` when there is none |
| `InitData.CompareDigest` | auth.py:11 | `compare_digest` raises exactly when an argument is non-ASCII, and otherwise reports equality |
| `InitData.Validate` | auth.py:3-11 | empty init data is rejected; accepted fields are the parsed map minus `hash`; it raises exactly when the given hash is non-ASCII |
| `InitData.AcceptedIff` | auth.py:7-11 | accepted if and only if the input is non-empty and the given hash equals the signature of the sorted data-check string of the other fields |
| `InitData.MissingHashRejected` | auth.py:7-11 | with a 32-byte HMAC, input with no `hash` field is always rejected |
| `InitData.AcceptedKeepsLastValue` | auth.py:6-11 | in accepted fields, a repeated key has the value of its last occurrence |
| `Ledger.ParseUid` | app.py:39-45 | no uid when the `user` field is absent or blank; otherwise the id read from its JSON |
| `Ledger.Authenticate` | app.py:84-88 | a caller is admitted if and only if the fields are accepted and non-empty and name a non-zero uid, and then as that uid; bad data gives 401, an empty map gives 401, no uid or uid 0 gives 400, and a raising verifier gives 500 |
| `Ledger.UnsignedRequestUnauthorized` | app.py:85-86 | init data with no `hash` field is answered with 401 |
| `Ledger.Lookup` | app.py:19-24 | `get_user` returns the stored record, or one with 0 gems and no items |
| `Ledger.Touch` | app.py:19-24 | a missing user is inserted for that uid only, and every existing entry is kept unchanged |
| `Ledger.Credit` | app.py:121-122 | adding gems moves only the target user's balance, by exactly the amount, and keeps their items |
| `Ledger.CreditTwice` | app.py:166 | two credits to one user equal one credit of the sum |
| `Ledger.CreditKeepsNonNegative` | app.py:166 | a non-negative credit keeps every balance non-negative |
| `Ledger.ItemCost` | app.py:100-101 | a premium price exists exactly for catalog items, and it is positive |
| `Ledger.ReturnUrl` | app.py:138 | `PUBLIC_BASE + "/thankyou"`, or `https://t.me` when the base is empty |
| `Ledger.PackChoice` | app.py:132 | `body.get("pack", "gems_100")`: the given pack id, or the catalog's `gems_100` when none is given |
| `Ledger.AmountValue` | app.py:69 | the amount string is the decimal digits of the rouble price, with no leading zero (`0.00` for zero), followed by `.00` |
| `Ledger.PaymentRequestFor` | app.py:137-139 | the request carries the pack's amount string, RUB, the return URL and the metadata uid and pack id |
| `Ledger.Store.Configured` | app.py:135 | the credentials count as missing exactly when either of them is unset or empty |
| `Ledger.Store.constructor` | app.py:8-17 | empty `USERS` and `PAYMENTS`; `PUBLIC_BASE` without trailing slashes |
| `Ledger.Store.GetUser` | app.py:19-24 | returns the stored record or a fresh one; `USERS` becomes `Touch` of the old map; `PAYMENTS` is unchanged |
| `Ledger.Store.Profile` | app.py:83-90 | reports the caller's gems, items and whether they are the owner; it may only create the caller's record |
| `Ledger.Store.BuyPremium` | app.py:92-107 | unknown item gives 400 with no change; too few gems gives `not_enough_gems` with the balance unchanged; otherwise exactly `cost` is taken and the item is added to the set |
| `Ledger.Store.AdminGrantGems` | app.py:109-123 | a non-owner gets 403 whatever the amount; an amount outside 1..10000 gets 400; otherwise exactly `amount` is credited to the owner alone |
| `Ledger.Store.CreatePayment` | app.py:125-143 | the pack defaults to `gems_100`; unknown pack gives 400, missing credentials give 500, a gateway error gives 400, none of them stores a record; on success exactly one `pending` record with the caller's uid, the pack's gems and the pack id is stored |
| `Ledger.Store.CheckPayment` | app.py:145-152 | missing id gives 400, unknown id gives 404; otherwise the record's status and its uid's balance; `PAYMENTS` is never modified |
| `Ledger.Store.Webhook` | app.py:154-172 | other events change nothing; a known id becomes `succeeded` and its record's uid gains the record's gems on every delivery; an unknown id with a non-zero uid and a catalog pack is credited and stored as `succeeded`; otherwise nothing changes |
| `Ledger.RedeliveryCreditsTwice` | app.py:162-166 | two deliveries of `payment.succeeded` for a known payment credit its user twice |
| `Ledger.CreatedPaymentIsPending` | app.py:139-152 | a payment the provider created reads back as `pending` with the payer's current balance |

`Ledger.PurchaseScenario`, `Ledger.GrantScenario` and `Ledger.PaymentScenario`
are client methods that check concrete runs at verification time. They cover
the purchase run for uid 42, the inclusive grant limit of 10000, and the
create, check and webhook round trip.

## Left out

- The aiohttp routing, `build_app`, `run_app`, the CORS middleware and the thank-you page: framework plumbing.
- Environment loading. `OWNER_ID`, `PUBLIC_BASE`, `YK_SHOP_ID` and `YK_SECRET_KEY` are constructor arguments, and the bot token is an argument of `Validate`. An unset `BOT_TOKEN`, where `None.encode()` would raise, is not modelled.
- JSON decoding of request bodies. Handlers take already-parsed fields. `int(...)` conversions that raise, which aiohttp would answer with a 500, are not modelled, and neither are JSON values of the wrong type (a non-string `itemId`, `pack` or `payment_id`, or a `null` `object`).
- Ledger.ParseUid: `readId` returns an integer or nothing, so a `user.id` that is a JSON string or float, which the handlers would use as a dict key, is not modelled.
- InitData.FormDecode: percent-decoding (`unquote` with UTF-8 and `errors='replace'`) is an abstract `Library` function. The `+` to space replacement before it (`PlusToSpace`, `PlusDecodesAsSpace`) and the `&`/`=` splitting of `parse_qsl` are modelled exactly. The `max_num_fields` and `separator` options keep their defaults.
- UTF-8 encoding that raises. `str.encode()` raises `UnicodeEncodeError` on a lone surrogate, and `unquote` passes such a character through when the component has no `%`. A bot token or data-check string holding one would make `validate_init_data` raise, and the handler would answer 500. Dafny's `char` has no surrogates and `Library.encode` is total, so this path is not modelled.
- HMAC-SHA256 and UTF-8 encoding are abstract `Library` functions. The claim that changing one character of valid init data makes verification fail rests on the collision resistance of HMAC, so it cannot be stated over an abstract HMAC and is not proved.
- The constant-time behaviour of `hmac.compare_digest`. Timing cannot be expressed, so the comparison is plain equality, together with its `TypeError` on non-ASCII input.
- The outbound YooKassa HTTPS call. This covers the Basic-auth header (RFC 7617 section 2, Base64 of RFC 4648), the uuid4 idempotence key and the reading of the reply. The gateway is a function from the request to `Created(id, confirmation_url)` or `Failed(body)`. A reply that lacks `id` or `confirmation_url`, which would raise `KeyError`, is not modelled.
- Concurrency. Every `await` comes before a handler's check-and-mutate, so each handler is one sequential step.
- In-place aliasing of user dicts. `get_user` returns the dict stored in `USERS`, and handlers mutate it through that reference. The model writes the updated record back into the map, which has the same effect.
- The order of `list(u["premium_items"])` in responses. Items are a set.
