# A Dafny model of the async-stripe client core

This project models four parts of the async-stripe Rust client and proves
properties of each.

- **The request executor** (`executor.dfy`, module `Executor`): `send_inner`,
  the retry loop of the tokio client, and `TokioClient::execute`. The loop is a
  method with a `while` loop over the variables `tries`, `last_status`,
  `last_retry_header` and `last_error`. It is proved equal to a recursive
  specification `Send`, and the attempt counts the client's own tests pin down
  are lemmas about that specification. Things outside the executor are
  parameters:
  - `RequestStrategy` is an oracle: an optional key and a `test` function.
  - The HTTP client is a script: `transport(k)` is the reply to attempt `k`.
  - The decoders are functions in `Codecs`: UTF-8 validation, the miniserde
    parses and `StatusCode::try_from`.
  - The loop returns the attempts it made as a trace. Each entry holds the
    delay slept before the attempt and the request sent, so "hits" are the
    length of the trace.
- **The JSON-object builders** of ten generated object types (one file each,
  together with the shared `json.dfy`). Each has:
  - a `Builder` class whose slot fields `DeserDefault` initialises;
  - the `key` routing of field names to slots;
  - `TakeOut`;
  - `FromValue`, a loop over the object's entries proved equal to
    `FromValueSpec`.

  Both variants of the generator are modelled. In the abort variant, a value
  that fails to convert fails the whole parse. In the clear variant, it empties
  its slot. miniserde's `Deserialize::default` for an `Option` field is
  `Some(None)`, so optional keys may be absent.
- **The string enums** of the request and object files. `as_str` and `from_str`
  are proved to be inverse. A closed enum rejects every unlisted string. An open
  enum maps it to `Unknown`.
- **The request builders** of the account, subscription-schedule and Treasury
  transaction-entry requests, and the refund requests:
  - `new` and every setter;
  - `build` (or the refund structs' `send`), which is the method, the path and
    how the parameters travel.

  `Serialized()` names the fields that `skip_serializing_if` lets through. Each
  setter is proved to set exactly its own field. Each built path is proved to
  route back, through `Route`, to the operation and the id that built it.

Each `Update*` enum in the request files is a textual copy of a `Create*` enum.
The same holds for the copies nested under `DefaultSettings` and under `Phases`.
Each set of copies is one Dafny datatype. Its `FromStr` row cites the lines of
one copy.

## Model

| member | source | states |
|---|---|---|
| Executor.ShouldRetry | async-stripe/src/client/base/tokio.rs:149-153 | the `Stripe-Should-Retry` value is `true` or `false` exactly when the header is present as that text; any other or unreadable value, or no header, gives `None` |
| Executor.LastStatus | async-stripe/src/client/base/tokio.rs:171-176 | the status kept for the strategy is the code when `StatusCode::try_from` knows it and `InternalServerError` (500) otherwise |
| Executor.ResponseError | async-stripe/src/client/base/tokio.rs:162-170 | an error body that parses gives `Stripe` with that error and the raw response status; any other body gives `JSONDeserialize("Could not deserialize Stripe error")` |
| Executor.WithKey | async-stripe/src/client/base/tokio.rs:119-121 | with a key, the request carries it under `Idempotency-Key` and keeps every other header; without one the request is unchanged |
| Executor.Absorb | async-stripe/src/client/base/tokio.rs:139-181 | a transport error goes round, adds one try and keeps status and header; an error response with a UTF-8 body goes round, adds one try and keeps its status (try_from fallback), header value and error; an unreadable body, a non-UTF-8 error body and a success end the loop at once, a success with its bytes |
| Executor.Receive | async-stripe/src/client/base/tokio.rs:139-181 | the handling of one reply inside the loop does exactly what `Absorb` states: which replies go round, with which new loop variables, and which end the loop with which result |
| Executor.RunFrom | async-stripe/src/client/base/tokio.rs:125-184 | no attempt exactly when the strategy says `Stop` at once, and then the result is the state's `last_error`; otherwise the first attempt carries the delay of the strategy's `Continue`; never more attempts than the strategy allows; every attempt sends the same request; every attempt but the last got a reply the loop goes round on; `Ok` only with the bytes of a success reply to the last attempt |
| Executor.AbsorbEnds | async-stripe/src/client/base/tokio.rs:139-181 | a reply that ends the loop ends it with the result `EndsWith` names for it; a reply the loop goes round on leaves `LeftError` of it as the next `last_error` |
| Executor.RunFromEnds | async-stripe/src/client/base/tokio.rs:125-184 | after at least one attempt the last reply decides the result: one the loop went round on gives `Err` of the error it left (the strategy then said `Stop`); a success gives `Ok` of its bytes; an unreadable body gives `FromHyper` of its error; a non-UTF-8 error body gives `JSONDeserialize("Response was not valid UTF-8")` |
| Executor.Send | async-stripe/src/client/base/tokio.rs:107-185 | a body that fails to read returns its error with no attempt; otherwise every attempt sends the keyed request with the body read once; no attempt only when the strategy stops at once, with `ClientError("Invalid strategy")`; the first attempt carries the first `Continue`'s delay; at most `bound` attempts; the last reply decides the result as `EndsWith` says (the error it left, its bytes, or its own error); `Ok` only with the bytes of the last reply, a success |
| Executor.SendInner | async-stripe/src/client/base/tokio.rs:107-185 | the loop over `tries`, `last_status`, `last_retry_header` and `last_error` returns exactly the result and the attempts of `Send` |
| Executor.Decode | async-stripe/src/client/base/tokio.rs:91-97 | succeeds exactly when the loop gave bytes that are UTF-8 and decode to the response type, with the decoded value; a loop error passes through; bad UTF-8 and a decode failure give their two `JSONDeserialize` messages |
| Executor.Execute | async-stripe/src/client/base/tokio.rs:80-98 | the result is `Decode` of what `send_inner` returned and the attempts are those of `send_inner`: decoding never makes another attempt |
| Executor.StopBeforeFirstAttempt | async-stripe/src/client/base/tokio.rs:116-127 | a strategy that stops before the first attempt sends nothing and returns `ClientError("Invalid strategy")` |
| Executor.SameKeyEveryAttempt | async-stripe/src/client/base/tokio.rs:119-137 | every attempt carries the strategy's key under `Idempotency-Key` |
| Executor.ExhaustFrom | async-stripe/src/client/base/tokio.rs:125-178 | from a state with `tries <= n`, while the replies are ones the loop goes round on and leave no should-retry value, the loop makes exactly `n - tries` more attempts and returns the `last_error` of reply `n - 1`, or the state's own when no attempt is left |
| Executor.RetryExhausts | async-stripe/src/client/base/tokio.rs:125-178 | replies the loop goes round on under a strategy that allows `n` tries: exactly `n` attempts, each with the same body, and the error reply `n - 1` left (`ClientError("Invalid strategy")` when `n` is 0) |
| Executor.ServerErrorFiveHits | async-stripe/src/client/base/tokio.rs:262-279 | a strategy allowing 5 tries against a constant 500 with an empty body: exactly 5 attempts and the error of the last 500, `JSONDeserialize("Could not deserialize Stripe error")` when the empty body is no Stripe error |
| Executor.RetryBodyResent | async-stripe/src/client/base/tokio.rs:370-389 | a strategy allowing 5 tries against a constant 500: 5 attempts, each carrying the body `"body"`, and the error of the last 500 |
| Executor.StopAfterFirstError | async-stripe/src/client/base/tokio.rs:157-178 | an error response to the first attempt, after which the strategy stops: one attempt and that response's error with its own status |
| Executor.ShouldRetryFalseOneHit | async-stripe/src/client/base/tokio.rs:350-368 | a 500 with `Stripe-Should-Retry: false`, under a strategy that honours it: one attempt and the error of that 500 |
| Executor.UserErrorOneHit | async-stripe/src/client/base/tokio.rs:281-308 | a 404 with a Stripe error body, after which the strategy stops: one attempt and `Stripe(e, 404)` |
| Executor.OnceKeepsStatus | async-stripe/src/client/base/tokio.rs:392-429 | a 400 under a one-try strategy: one attempt and `Stripe(e, 400)` with the parsed error |
| Executor.UndecodableSuccessOneHit | async-stripe/src/client/base/tokio.rs:310-348 | a 200 whose body is UTF-8 but not of the response type: one attempt, its bytes returned, and `execute` gives `JSONDeserialize` |
| Networks.Key | generated/stripe_shared/src/networks.rs:46-53 | routes exactly the field names "available", "preferred" to their slots; every other name is ignored |
| Networks.Builder.DeserDefault | generated/stripe_shared/src/networks.rs:55-57 | required slots start empty and optional ones hold `Some(None)` |
| Networks.Builder.TakeOut | generated/stripe_shared/src/networks.rs:59-61 | returns the record exactly when every slot is filled; slots read with `.take()` are emptied in field order up to the first empty one, copied slots are unchanged |
| Networks.FromValue | generated/stripe_shared/src/networks.rs:80-94 | a non-object gives `None`; an object gives what `take_out` yields on the slots filled by the last value under each key, or `None` as soon as a value fails to convert |
| Networks.FromValueSome | generated/stripe_shared/src/networks.rs:85-93 | an object parses exactly when every known value converts and every required key occurs; an absent optional key reads as `None` |
| Networks.UnknownKeyIgnored | generated/stripe_shared/src/networks.rs:90 | an entry under a key with no slot can be removed without changing the result |
| Networks.FailedConversionAborts | generated/stripe_shared/src/networks.rs:87-88 | a known value that fails to convert, anywhere in the object, makes the result `None` |
| Networks.LastValueWins | generated/stripe_shared/src/networks.rs:85-92 | for a repeated key, an earlier value that converts can be dropped: the last value decides the slot |
| PaymentIntentLink.CaptureMethodAsStr | generated/stripe_shared/src/payment_intent_payment_method_options_link.rs:124-131 | every variant gives one of the listed wire names, the strings `from_str` accepts |
| PaymentIntentLink.CaptureMethodFromStr | generated/stripe_shared/src/payment_intent_payment_method_options_link.rs:133-142 | returns a variant exactly for the strings "manual" and `as_str` of that variant is the input; every other string is `Err(())` |
| PaymentIntentLink.CaptureMethodRoundTrip | generated/stripe_shared/src/payment_intent_payment_method_options_link.rs:124-142 | `from_str(as_str(v))` is `v` for every variant |
| PaymentIntentLink.CaptureMethodVisitString | generated/stripe_shared/src/payment_intent_payment_method_options_link.rs:169-178 | the string visitor succeeds exactly on the listed names, with the variant `as_str` inverts, and fails on every other string |
| PaymentIntentLink.SetupFutureUsageAsStr | generated/stripe_shared/src/payment_intent_payment_method_options_link.rs:204-212 | every variant gives one of the listed wire names, the strings `from_str` accepts |
| PaymentIntentLink.SetupFutureUsageFromStr | generated/stripe_shared/src/payment_intent_payment_method_options_link.rs:214-224 | returns a variant exactly for the strings "none", "off_session" and `as_str` of that variant is the input; every other string is `Err(())` |
| PaymentIntentLink.SetupFutureUsageRoundTrip | generated/stripe_shared/src/payment_intent_payment_method_options_link.rs:204-224 | `from_str(as_str(v))` is `v` for every variant |
| PaymentIntentLink.SetupFutureUsageVisitString | generated/stripe_shared/src/payment_intent_payment_method_options_link.rs:251-262 | the string visitor succeeds exactly on the listed names, with the variant `as_str` inverts, and fails on every other string |
| PaymentIntentLink.Key | generated/stripe_shared/src/payment_intent_payment_method_options_link.rs:56-64 | routes exactly the field names "capture_method", "persistent_token", "setup_future_usage" to their slots; every other name is ignored |
| PaymentIntentLink.Builder.DeserDefault | generated/stripe_shared/src/payment_intent_payment_method_options_link.rs:66-72 | required slots start empty and optional ones hold `Some(None)` |
| PaymentIntentLink.Builder.TakeOut | generated/stripe_shared/src/payment_intent_payment_method_options_link.rs:74-80 | returns the record exactly when every slot is filled; slots read with `.take()` are emptied in field order up to the first empty one, copied slots are unchanged |
| PaymentIntentLink.FromValue | generated/stripe_shared/src/payment_intent_payment_method_options_link.rs:99-116 | a non-object gives `None`; an object gives what `take_out` yields on the slots filled by the last value under each key, or `None` as soon as a value fails to convert |
| PaymentIntentLink.FromValueSome | generated/stripe_shared/src/payment_intent_payment_method_options_link.rs:104-115 | an object parses exactly when every known value converts; an absent optional key reads as `None` |
| PaymentIntentLink.UnknownKeyIgnored | generated/stripe_shared/src/payment_intent_payment_method_options_link.rs:112 | an entry under a key with no slot can be removed without changing the result |
| PaymentIntentLink.FailedConversionAborts | generated/stripe_shared/src/payment_intent_payment_method_options_link.rs:106-110 | a known value that fails to convert, anywhere in the object, makes the result `None` |
| PaymentIntentLink.LastValueWins | generated/stripe_shared/src/payment_intent_payment_method_options_link.rs:104-114 | for a repeated key, an earlier value that converts can be dropped: the last value decides the slot |
| TaxShippingCost.TaxBehaviorAsStr | generated/stripe_misc/src/tax_product_resource_tax_calculation_shipping_cost.rs:143-151 | every variant gives one of the listed wire names, the strings `from_str` accepts |
| TaxShippingCost.TaxBehaviorFromStr | generated/stripe_misc/src/tax_product_resource_tax_calculation_shipping_cost.rs:153-163 | returns a variant exactly for the strings "exclusive", "inclusive" and `as_str` of that variant is the input; every other string is `Err(())` |
| TaxShippingCost.TaxBehaviorRoundTrip | generated/stripe_misc/src/tax_product_resource_tax_calculation_shipping_cost.rs:143-163 | `from_str(as_str(v))` is `v` for every variant |
| TaxShippingCost.TaxBehaviorVisitString | generated/stripe_misc/src/tax_product_resource_tax_calculation_shipping_cost.rs:190-201 | the string visitor succeeds exactly on the listed names, with the variant `as_str` inverts, and fails on every other string |
| TaxShippingCost.Key | generated/stripe_misc/src/tax_product_resource_tax_calculation_shipping_cost.rs:63-74 | routes exactly the field names "amount", "amount_tax", "shipping_rate", "tax_behavior", "tax_breakdown", "tax_code" to their slots; every other name is ignored |
| TaxShippingCost.Builder.DeserDefault | generated/stripe_misc/src/tax_product_resource_tax_calculation_shipping_cost.rs:76-85 | required slots start empty and optional ones hold `Some(None)` |
| TaxShippingCost.Builder.TakeOut | generated/stripe_misc/src/tax_product_resource_tax_calculation_shipping_cost.rs:87-96 | returns the record exactly when every slot is filled; slots read with `.take()` are emptied in field order up to the first empty one, copied slots are unchanged |
| TaxShippingCost.FromValue | generated/stripe_misc/src/tax_product_resource_tax_calculation_shipping_cost.rs:115-133 | a non-object gives `None`; an object gives what `take_out` yields on the slots filled by the last value under each key, or `None` as soon as a value fails to convert |
| TaxShippingCost.FromValueSome | generated/stripe_misc/src/tax_product_resource_tax_calculation_shipping_cost.rs:120-132 | an object parses exactly when every known value converts and every required key occurs; an absent optional key reads as `None` |
| TaxShippingCost.UnknownKeyIgnored | generated/stripe_misc/src/tax_product_resource_tax_calculation_shipping_cost.rs:129 | an entry under a key with no slot can be removed without changing the result |
| TaxShippingCost.FailedConversionAborts | generated/stripe_misc/src/tax_product_resource_tax_calculation_shipping_cost.rs:122-127 | a known value that fails to convert, anywhere in the object, makes the result `None` |
| TaxShippingCost.LastValueWins | generated/stripe_misc/src/tax_product_resource_tax_calculation_shipping_cost.rs:120-131 | for a repeated key, an earlier value that converts can be dropped: the last value decides the slot |
| BancontactOptions.PreferredLanguageAsStr | generated/stripe_shared/src/invoice_payment_method_options_bancontact.rs:104-114 | every variant gives one of the listed wire names, the strings `from_str` accepts |
| BancontactOptions.PreferredLanguageFromStr | generated/stripe_shared/src/invoice_payment_method_options_bancontact.rs:116-128 | returns a variant exactly for the strings "de", "en", "fr", "nl" and `as_str` of that variant is the input; every other string is `Err(())` |
| BancontactOptions.PreferredLanguageRoundTrip | generated/stripe_shared/src/invoice_payment_method_options_bancontact.rs:104-128 | `from_str(as_str(v))` is `v` for every variant |
| BancontactOptions.PreferredLanguageVisitString | generated/stripe_shared/src/invoice_payment_method_options_bancontact.rs:155-166 | the string visitor succeeds exactly on the listed names, with the variant `as_str` inverts, and fails on every other string |
| BancontactOptions.Key | generated/stripe_shared/src/invoice_payment_method_options_bancontact.rs:45-51 | routes exactly the field names "preferred_language" to their slots; every other name is ignored |
| BancontactOptions.Builder.DeserDefault | generated/stripe_shared/src/invoice_payment_method_options_bancontact.rs:53-55 | every slot starts empty |
| BancontactOptions.Builder.TakeOut | generated/stripe_shared/src/invoice_payment_method_options_bancontact.rs:57-59 | returns the record exactly when every slot is filled; the slots are unchanged |
| BancontactOptions.FromValue | generated/stripe_shared/src/invoice_payment_method_options_bancontact.rs:78-93 | a non-object gives `None`; an object gives what `take_out` yields on the slots filled by the last value under each key, or `None` as soon as a value fails to convert |
| BancontactOptions.FromValueSome | generated/stripe_shared/src/invoice_payment_method_options_bancontact.rs:83-92 | an object parses exactly when every known value converts and every required key occurs |
| BancontactOptions.UnknownKeyIgnored | generated/stripe_shared/src/invoice_payment_method_options_bancontact.rs:89 | an entry under a key with no slot can be removed without changing the result |
| BancontactOptions.FailedConversionAborts | generated/stripe_shared/src/invoice_payment_method_options_bancontact.rs:85-87 | a known value that fails to convert, anywhere in the object, makes the result `None` |
| BancontactOptions.LastValueWins | generated/stripe_shared/src/invoice_payment_method_options_bancontact.rs:83-91 | for a repeated key, an earlier value that converts can be dropped: the last value decides the slot |
| EmbeddedPaymentsFeatures.Key | generated/async-stripe-connect/src/connect_embedded_payments_features.rs:62-73 | routes exactly the field names "capture_payments", "destination_on_behalf_of_charge_management", "dispute_management", "refund_management" to their slots; every other name is ignored |
| EmbeddedPaymentsFeatures.Builder.DeserDefault | generated/async-stripe-connect/src/connect_embedded_payments_features.rs:75-82 | every slot starts empty |
| EmbeddedPaymentsFeatures.Builder.TakeOut | generated/async-stripe-connect/src/connect_embedded_payments_features.rs:84-105 | returns the record exactly when every slot is filled; the slots are unchanged |
| EmbeddedPaymentsFeatures.FromValue | generated/async-stripe-connect/src/connect_embedded_payments_features.rs:124-142 | a non-object gives `None`; an object gives what `take_out` yields on the slots filled by the last value under each key (a failed conversion empties the slot) |
| EmbeddedPaymentsFeatures.FromValueSome | generated/async-stripe-connect/src/connect_embedded_payments_features.rs:129-141 | an object parses exactly when the last value under each key converts |
| EmbeddedPaymentsFeatures.UnknownKeyIgnored | generated/async-stripe-connect/src/connect_embedded_payments_features.rs:138 | an entry under a key with no slot can be removed without changing the result |
| EmbeddedPaymentsFeatures.FailedConversionClears | generated/async-stripe-connect/src/connect_embedded_payments_features.rs:131-136 | a last value that fails to convert empties its slot instead of aborting, so the result is `None` |
| EmbeddedPaymentsFeatures.LastValueWins | generated/async-stripe-connect/src/connect_embedded_payments_features.rs:129-140 | for a repeated key only the last value matters: a later valid value refills a slot an earlier bad one cleared |
| SepaDebitSource.Key | generated/stripe_shared/src/source_type_sepa_debit.rs:56-68 | routes exactly the field names "bank_code", "branch_code", "country", "fingerprint", "last4", "mandate_reference", "mandate_url" to their slots; every other name is ignored |
| SepaDebitSource.Builder.DeserDefault | generated/stripe_shared/src/source_type_sepa_debit.rs:70-80 | required slots start empty and optional ones hold `Some(None)` |
| SepaDebitSource.Builder.TakeOut | generated/stripe_shared/src/source_type_sepa_debit.rs:82-92 | returns the record exactly when every slot is filled; slots read with `.take()` are emptied in field order up to the first empty one, copied slots are unchanged |
| SepaDebitSource.FromValue | generated/stripe_shared/src/source_type_sepa_debit.rs:111-130 | a non-object gives `None`; an object gives what `take_out` yields on the slots filled by the last value under each key, or `None` as soon as a value fails to convert |
| SepaDebitSource.FromValueSome | generated/stripe_shared/src/source_type_sepa_debit.rs:116-129 | an object parses exactly when every known value converts; an absent optional key reads as `None` |
| SepaDebitSource.UnknownKeyIgnored | generated/stripe_shared/src/source_type_sepa_debit.rs:126 | an entry under a key with no slot can be removed without changing the result |
| SepaDebitSource.FailedConversionAborts | generated/stripe_shared/src/source_type_sepa_debit.rs:118-124 | a known value that fails to convert, anywhere in the object, makes the result `None` |
| SepaDebitSource.LastValueWins | generated/stripe_shared/src/source_type_sepa_debit.rs:116-128 | for a repeated key, an earlier value that converts can be dropped: the last value decides the slot |
| IssuingNetworkData.Key | generated/stripe_shared/src/issuing_transaction_network_data.rs:56-64 | routes exactly the field names "authorization_code", "processing_date", "transaction_id" to their slots; every other name is ignored |
| IssuingNetworkData.Builder.DeserDefault | generated/stripe_shared/src/issuing_transaction_network_data.rs:66-72 | required slots start empty and optional ones hold `Some(None)` |
| IssuingNetworkData.Builder.TakeOut | generated/stripe_shared/src/issuing_transaction_network_data.rs:74-80 | returns the record exactly when every slot is filled; slots read with `.take()` are emptied in field order up to the first empty one, copied slots are unchanged |
| IssuingNetworkData.FromValue | generated/stripe_shared/src/issuing_transaction_network_data.rs:99-116 | a non-object gives `None`; an object gives what `take_out` yields on the slots filled by the last value under each key, or `None` as soon as a value fails to convert |
| IssuingNetworkData.FromValueSome | generated/stripe_shared/src/issuing_transaction_network_data.rs:104-115 | an object parses exactly when every known value converts; an absent optional key reads as `None` |
| IssuingNetworkData.UnknownKeyIgnored | generated/stripe_shared/src/issuing_transaction_network_data.rs:112 | an entry under a key with no slot can be removed without changing the result |
| IssuingNetworkData.FailedConversionAborts | generated/stripe_shared/src/issuing_transaction_network_data.rs:106-110 | a known value that fails to convert, anywhere in the object, makes the result `None` |
| IssuingNetworkData.LastValueWins | generated/stripe_shared/src/issuing_transaction_network_data.rs:104-114 | for a repeated key, an earlier value that converts can be dropped: the last value decides the slot |
| ReceivedDebitTransitions.Key | generated/async-stripe-treasury/src/treasury_received_debits_resource_status_transitions.rs:51-57 | routes exactly the field names "completed_at" to their slots; every other name is ignored |
| ReceivedDebitTransitions.Builder.DeserDefault | generated/async-stripe-treasury/src/treasury_received_debits_resource_status_transitions.rs:59-61 | required slots start empty and optional ones hold `Some(None)` |
| ReceivedDebitTransitions.Builder.TakeOut | generated/async-stripe-treasury/src/treasury_received_debits_resource_status_transitions.rs:63-68 | returns the record exactly when every slot is filled; the slots are unchanged |
| ReceivedDebitTransitions.FromValue | generated/async-stripe-treasury/src/treasury_received_debits_resource_status_transitions.rs:87-100 | a non-object gives `None`; an object gives what `take_out` yields on the slots filled by the last value under each key (a failed conversion empties the slot) |
| ReceivedDebitTransitions.FromValueSome | generated/async-stripe-treasury/src/treasury_received_debits_resource_status_transitions.rs:92-99 | an object parses exactly when the last value under each key converts; an absent optional key reads as `None` |
| ReceivedDebitTransitions.UnknownKeyIgnored | generated/async-stripe-treasury/src/treasury_received_debits_resource_status_transitions.rs:96 | an entry under a key with no slot can be removed without changing the result |
| ReceivedDebitTransitions.FailedConversionClears | generated/async-stripe-treasury/src/treasury_received_debits_resource_status_transitions.rs:94-94 | a last value that fails to convert empties its slot instead of aborting, so the result is `None` |
| ReceivedDebitTransitions.LastValueWins | generated/async-stripe-treasury/src/treasury_received_debits_resource_status_transitions.rs:92-98 | for a repeated key only the last value matters: a later valid value refills a slot an earlier bad one cleared |
| VerificationSessionOptions.Key | generated/stripe_misc/src/gelato_verification_session_options.rs:46-53 | routes exactly the field names "document", "id_number" to their slots; every other name is ignored |
| VerificationSessionOptions.Builder.DeserDefault | generated/stripe_misc/src/gelato_verification_session_options.rs:55-57 | required slots start empty and optional ones hold `Some(None)` |
| VerificationSessionOptions.Builder.TakeOut | generated/stripe_misc/src/gelato_verification_session_options.rs:59-61 | returns the record exactly when every slot is filled; slots read with `.take()` are emptied in field order up to the first empty one, copied slots are unchanged |
| VerificationSessionOptions.FromValue | generated/stripe_misc/src/gelato_verification_session_options.rs:80-94 | a non-object gives `None`; an object gives what `take_out` yields on the slots filled by the last value under each key, or `None` as soon as a value fails to convert |
| VerificationSessionOptions.FromValueSome | generated/stripe_misc/src/gelato_verification_session_options.rs:85-93 | an object parses exactly when every known value converts; an absent optional key reads as `None` |
| VerificationSessionOptions.UnknownKeyIgnored | generated/stripe_misc/src/gelato_verification_session_options.rs:90 | an entry under a key with no slot can be removed without changing the result |
| VerificationSessionOptions.FailedConversionAborts | generated/stripe_misc/src/gelato_verification_session_options.rs:87-88 | a known value that fails to convert, anywhere in the object, makes the result `None` |
| VerificationSessionOptions.LastValueWins | generated/stripe_misc/src/gelato_verification_session_options.rs:85-92 | for a repeated key, an earlier value that converts can be dropped: the last value decides the slot |
| ReportIdNumberOptions.Key | generated/async-stripe-misc/src/gelato_report_id_number_options.rs:46-50 | routes no name to a slot: every key is ignored |
| ReportIdNumberOptions.Builder.TakeOut | generated/async-stripe-misc/src/gelato_report_id_number_options.rs:56-61 | always returns the (empty) record |
| ReportIdNumberOptions.FromValue | generated/async-stripe-misc/src/gelato_report_id_number_options.rs:80-91 | a non-object gives `None`; every object gives `Some(IdNumberOptions)`, whatever its entries |
| ReportIdNumberOptions.FromValueObjects | generated/async-stripe-misc/src/gelato_report_id_number_options.rs:81-90 | every object parses whatever its keys, and every non-object gives `None` |
| TreasuryTransactionEntryRequests.OrderByAsStr | generated/async-stripe-treasury/src/treasury_transaction_entry/requests.rs:47-55 | every variant gives one of the listed wire names, the strings `from_str` accepts |
| TreasuryTransactionEntryRequests.OrderByFromStr | generated/async-stripe-treasury/src/treasury_transaction_entry/requests.rs:57-67 | returns a variant exactly for the strings "created", "effective_at" and `as_str` of that variant is the input; every other string is `StripeParseError` |
| TreasuryTransactionEntryRequests.OrderByRoundTrip | generated/async-stripe-treasury/src/treasury_transaction_entry/requests.rs:47-67 | `from_str(as_str(v))` is `v` for every variant |
| TreasuryTransactionEntryRequests.ListTreasuryTransactionEntryBuilder.New | generated/async-stripe-treasury/src/treasury_transaction_entry/requests.rs:26-38 | stores `financial_account` and leaves every optional field unset, so that only it is serialised |
| TreasuryTransactionEntryRequests.ListTreasuryTransactionEntry.New | generated/async-stripe-treasury/src/treasury_transaction_entry/requests.rs:104-106 | stores `financial_account`; serialises only `financial_account` |
| TreasuryTransactionEntryRequests.ListTreasuryTransactionEntry.Created | generated/async-stripe-treasury/src/treasury_transaction_entry/requests.rs:108-111 | stores the argument in `created`, changes no other field of the request, and adds exactly `created` to the serialised names |
| TreasuryTransactionEntryRequests.ListTreasuryTransactionEntry.EffectiveAt | generated/async-stripe-treasury/src/treasury_transaction_entry/requests.rs:112-115 | stores the argument in `effective_at`, changes no other field of the request, and adds exactly `effective_at` to the serialised names |
| TreasuryTransactionEntryRequests.ListTreasuryTransactionEntry.EndingBefore | generated/async-stripe-treasury/src/treasury_transaction_entry/requests.rs:119-122 | stores the argument in `ending_before`, changes no other field of the request, and adds exactly `ending_before` to the serialised names |
| TreasuryTransactionEntryRequests.ListTreasuryTransactionEntry.Expand | generated/async-stripe-treasury/src/treasury_transaction_entry/requests.rs:124-127 | stores the argument in `expand`, changes no other field of the request, and adds exactly `expand` to the serialised names |
| TreasuryTransactionEntryRequests.ListTreasuryTransactionEntry.Limit | generated/async-stripe-treasury/src/treasury_transaction_entry/requests.rs:130-133 | stores the argument in `limit`, changes no other field of the request, and adds exactly `limit` to the serialised names |
| TreasuryTransactionEntryRequests.ListTreasuryTransactionEntry.OrderBy | generated/async-stripe-treasury/src/treasury_transaction_entry/requests.rs:136-139 | stores the argument in `order_by`, changes no other field of the request, and adds exactly `order_by` to the serialised names |
| TreasuryTransactionEntryRequests.ListTreasuryTransactionEntry.StartingAfter | generated/async-stripe-treasury/src/treasury_transaction_entry/requests.rs:143-146 | stores the argument in `starting_after`, changes no other field of the request, and adds exactly `starting_after` to the serialised names |
| TreasuryTransactionEntryRequests.ListTreasuryTransactionEntry.Transaction | generated/async-stripe-treasury/src/treasury_transaction_entry/requests.rs:148-151 | stores the argument in `transaction`, changes no other field of the request, and adds exactly `transaction` to the serialised names |
| TreasuryTransactionEntryRequests.ListTreasuryTransactionEntry.Build | generated/async-stripe-treasury/src/treasury_transaction_entry/requests.rs:182-184 | GET with the builder as the query string; the path routes back to this operation |
| TreasuryTransactionEntryRequests.RetrieveTreasuryTransactionEntryBuilder.New | generated/async-stripe-treasury/src/treasury_transaction_entry/requests.rs:192-194 | leaves every field unset, so that nothing is serialised |
| TreasuryTransactionEntryRequests.RetrieveTreasuryTransactionEntry.New | generated/async-stripe-treasury/src/treasury_transaction_entry/requests.rs:204-206 | stores the `id` id; serialises no parameter |
| TreasuryTransactionEntryRequests.RetrieveTreasuryTransactionEntry.Expand | generated/async-stripe-treasury/src/treasury_transaction_entry/requests.rs:208-211 | stores the argument in `expand`, changes no other field of the request, and adds exactly `expand` to the serialised names |
| TreasuryTransactionEntryRequests.RetrieveTreasuryTransactionEntry.Build | generated/async-stripe-treasury/src/treasury_transaction_entry/requests.rs:234-238 | GET with the builder as the query string; the path routes back to this operation and its `id`, provided the id holds no `/` |
| AccountRequests.CompanyStructureAsStr | generated/async-stripe-connect/src/account/requests.rs:740-770 | every variant but `Unknown` gives one of the listed wire names, and `Unknown` gives a name outside the list, so `from_str` cannot turn it into a named variant |
| AccountRequests.CompanyStructureFromStr | generated/async-stripe-connect/src/account/requests.rs:772-803 | returns a variant exactly for the strings of the 23 named variants and `as_str` of that variant is the input; every other string gives `Unknown` |
| AccountRequests.CompanyStructureRoundTrip | generated/async-stripe-connect/src/account/requests.rs:740-803 | `from_str(as_str(v))` is `v` for every variant, `Unknown` included |
| AccountRequests.FeesPayerAsStr | generated/async-stripe-connect/src/account/requests.rs:885-893 | every variant gives one of the listed wire names, the strings `from_str` accepts |
| AccountRequests.FeesPayerFromStr | generated/async-stripe-connect/src/account/requests.rs:895-905 | returns a variant exactly for the strings "account", "application" and `as_str` of that variant is the input; every other string is `StripeParseError` |
| AccountRequests.FeesPayerRoundTrip | generated/async-stripe-connect/src/account/requests.rs:885-905 | `from_str(as_str(v))` is `v` for every variant |
| AccountRequests.LossesPaymentsAsStr | generated/async-stripe-connect/src/account/requests.rs:960-968 | every variant gives one of the listed wire names, the strings `from_str` accepts |
| AccountRequests.LossesPaymentsFromStr | generated/async-stripe-connect/src/account/requests.rs:970-980 | returns a variant exactly for the strings "application", "stripe" and `as_str` of that variant is the input; every other string is `StripeParseError` |
| AccountRequests.LossesPaymentsRoundTrip | generated/async-stripe-connect/src/account/requests.rs:960-980 | `from_str(as_str(v))` is `v` for every variant |
| AccountRequests.RequirementCollectionAsStr | generated/async-stripe-connect/src/account/requests.rs:1017-1025 | every variant gives one of the listed wire names, the strings `from_str` accepts |
| AccountRequests.RequirementCollectionFromStr | generated/async-stripe-connect/src/account/requests.rs:1027-1037 | returns a variant exactly for the strings "application", "stripe" and `as_str` of that variant is the input; every other string is `StripeParseError` |
| AccountRequests.RequirementCollectionRoundTrip | generated/async-stripe-connect/src/account/requests.rs:1017-1037 | `from_str(as_str(v))` is `v` for every variant |
| AccountRequests.StripeDashboardTypeAsStr | generated/async-stripe-connect/src/account/requests.rs:1096-1105 | every variant gives one of the listed wire names, the strings `from_str` accepts |
| AccountRequests.StripeDashboardTypeFromStr | generated/async-stripe-connect/src/account/requests.rs:1107-1118 | returns a variant exactly for the strings "express", "full", "none" and `as_str` of that variant is the input; every other string is `StripeParseError` |
| AccountRequests.StripeDashboardTypeRoundTrip | generated/async-stripe-connect/src/account/requests.rs:1096-1118 | `from_str(as_str(v))` is `v` for every variant |
| AccountRequests.PoliticalExposureAsStr | generated/async-stripe-connect/src/account/requests.rs:1356-1364 | every variant gives one of the listed wire names, the strings `from_str` accepts |
| AccountRequests.PoliticalExposureFromStr | generated/async-stripe-connect/src/account/requests.rs:1366-1376 | returns a variant exactly for the strings "existing", "none" and `as_str` of that variant is the input; every other string is `StripeParseError` |
| AccountRequests.PoliticalExposureRoundTrip | generated/async-stripe-connect/src/account/requests.rs:1356-1376 | `from_str(as_str(v))` is `v` for every variant |
| AccountRequests.IntervalAsStr | generated/async-stripe-connect/src/account/requests.rs:1532-1542 | every variant gives one of the listed wire names, the strings `from_str` accepts |
| AccountRequests.IntervalFromStr | generated/async-stripe-connect/src/account/requests.rs:1544-1556 | returns a variant exactly for the strings "daily", "manual", "monthly", "weekly" and `as_str` of that variant is the input; every other string is `StripeParseError` |
| AccountRequests.IntervalRoundTrip | generated/async-stripe-connect/src/account/requests.rs:1532-1556 | `from_str(as_str(v))` is `v` for every variant |
| AccountRequests.WeeklyAnchorAsStr | generated/async-stripe-connect/src/account/requests.rs:1600-1613 | every variant gives one of the listed wire names, the strings `from_str` accepts |
| AccountRequests.WeeklyAnchorFromStr | generated/async-stripe-connect/src/account/requests.rs:1615-1630 | returns a variant exactly for the strings "friday", "monday", "saturday", "sunday", "thursday", "tuesday", "wednesday" and `as_str` of that variant is the input; every other string is `StripeParseError` |
| AccountRequests.WeeklyAnchorRoundTrip | generated/async-stripe-connect/src/account/requests.rs:1600-1630 | `from_str(as_str(v))` is `v` for every variant |
| AccountRequests.WeeklyAnchorAsStrInjective | generated/async-stripe-connect/src/account/requests.rs:1600-1613 | distinct variants have distinct wire names |
| AccountRequests.AccountTypeAsStr | generated/async-stripe-connect/src/account/requests.rs:1669-1678 | every variant gives one of the listed wire names, the strings `from_str` accepts |
| AccountRequests.AccountTypeFromStr | generated/async-stripe-connect/src/account/requests.rs:1680-1691 | returns a variant exactly for the strings "custom", "express", "standard" and `as_str` of that variant is the input; every other string is `StripeParseError` |
| AccountRequests.AccountTypeRoundTrip | generated/async-stripe-connect/src/account/requests.rs:1669-1691 | `from_str(as_str(v))` is `v` for every variant |
| AccountRequests.DeleteAccount.New | generated/async-stripe-connect/src/account/requests.rs:19-21 | stores the `account` id |
| AccountRequests.DeleteAccount.Build | generated/async-stripe-connect/src/account/requests.rs:44-47 | DELETE with no query and no body; the path routes back to this operation and its `account`, provided the id holds no `/` |
| AccountRequests.RetrieveForMyAccountAccountBuilder.New | generated/async-stripe-connect/src/account/requests.rs:55-57 | leaves every field unset, so that nothing is serialised |
| AccountRequests.RetrieveForMyAccountAccount.New | generated/async-stripe-connect/src/account/requests.rs:66-68 | serialises no parameter |
| AccountRequests.RetrieveForMyAccountAccount.Expand | generated/async-stripe-connect/src/account/requests.rs:70-73 | stores the argument in `expand`, changes no other field of the request, and adds exactly `expand` to the serialised names |
| AccountRequests.RetrieveForMyAccountAccount.Build | generated/async-stripe-connect/src/account/requests.rs:101-103 | GET with the builder as the query string; the path routes back to this operation |
| AccountRequests.ListAccountBuilder.New | generated/async-stripe-connect/src/account/requests.rs:119-121 | leaves every field unset, so that nothing is serialised |
| AccountRequests.ListAccount.New | generated/async-stripe-connect/src/account/requests.rs:131-133 | serialises no parameter |
| AccountRequests.ListAccount.Created | generated/async-stripe-connect/src/account/requests.rs:135-138 | stores the argument in `created`, changes no other field of the request, and adds exactly `created` to the serialised names |
| AccountRequests.ListAccount.EndingBefore | generated/async-stripe-connect/src/account/requests.rs:142-145 | stores the argument in `ending_before`, changes no other field of the request, and adds exactly `ending_before` to the serialised names |
| AccountRequests.ListAccount.Expand | generated/async-stripe-connect/src/account/requests.rs:147-150 | stores the argument in `expand`, changes no other field of the request, and adds exactly `expand` to the serialised names |
| AccountRequests.ListAccount.Limit | generated/async-stripe-connect/src/account/requests.rs:153-156 | stores the argument in `limit`, changes no other field of the request, and adds exactly `limit` to the serialised names |
| AccountRequests.ListAccount.StartingAfter | generated/async-stripe-connect/src/account/requests.rs:160-163 | stores the argument in `starting_after`, changes no other field of the request, and adds exactly `starting_after` to the serialised names |
| AccountRequests.ListAccount.Build | generated/async-stripe-connect/src/account/requests.rs:197-199 | GET with the builder as the query string; the path routes back to this operation |
| AccountRequests.RetrieveAccountBuilder.New | generated/async-stripe-connect/src/account/requests.rs:207-209 | leaves every field unset, so that nothing is serialised |
| AccountRequests.RetrieveAccount.New | generated/async-stripe-connect/src/account/requests.rs:219-221 | stores the `account` id; serialises no parameter |
| AccountRequests.RetrieveAccount.Expand | generated/async-stripe-connect/src/account/requests.rs:223-226 | stores the argument in `expand`, changes no other field of the request, and adds exactly `expand` to the serialised names |
| AccountRequests.RetrieveAccount.Build | generated/async-stripe-connect/src/account/requests.rs:249-252 | GET with the builder as the query string; the path routes back to this operation and its `account`, provided the id holds no `/` |
| AccountRequests.CapabilitiesAccountBuilder.New | generated/async-stripe-connect/src/account/requests.rs:260-262 | leaves every field unset, so that nothing is serialised |
| AccountRequests.CapabilitiesAccount.New | generated/async-stripe-connect/src/account/requests.rs:273-275 | stores the `account` id; serialises no parameter |
| AccountRequests.CapabilitiesAccount.Expand | generated/async-stripe-connect/src/account/requests.rs:277-280 | stores the argument in `expand`, changes no other field of the request, and adds exactly `expand` to the serialised names |
| AccountRequests.CapabilitiesAccount.Build | generated/async-stripe-connect/src/account/requests.rs:314-318 | GET with the builder as the query string; the path routes back to this operation and its `account`, provided the id holds no `/` |
| AccountRequests.PersonsAccountBuilder.New | generated/async-stripe-connect/src/account/requests.rs:334-342 | leaves every field unset, so that nothing is serialised |
| AccountRequests.PersonsAccount.New | generated/async-stripe-connect/src/account/requests.rs:388-390 | stores the `account` id; serialises no parameter |
| AccountRequests.PersonsAccount.EndingBefore | generated/async-stripe-connect/src/account/requests.rs:394-397 | stores the argument in `ending_before`, changes no other field of the request, and adds exactly `ending_before` to the serialised names |
| AccountRequests.PersonsAccount.Expand | generated/async-stripe-connect/src/account/requests.rs:399-402 | stores the argument in `expand`, changes no other field of the request, and adds exactly `expand` to the serialised names |
| AccountRequests.PersonsAccount.Limit | generated/async-stripe-connect/src/account/requests.rs:405-408 | stores the argument in `limit`, changes no other field of the request, and adds exactly `limit` to the serialised names |
| AccountRequests.PersonsAccount.Relationship | generated/async-stripe-connect/src/account/requests.rs:410-413 | stores the argument in `relationship`, changes no other field of the request, and adds exactly `relationship` to the serialised names |
| AccountRequests.PersonsAccount.StartingAfter | generated/async-stripe-connect/src/account/requests.rs:417-420 | stores the argument in `starting_after`, changes no other field of the request, and adds exactly `starting_after` to the serialised names |
| AccountRequests.PersonsAccount.Build | generated/async-stripe-connect/src/account/requests.rs:454-458 | GET with the builder as the query string; the path routes back to this operation and its `account`, provided the id holds no `/` |
| AccountRequests.CreateAccountBuilder.New | generated/async-stripe-connect/src/account/requests.rs:499-519 | leaves every field unset, so that nothing is serialised |
| AccountRequests.CreateAccount.New | generated/async-stripe-connect/src/account/requests.rs:1733-1735 | serialises no parameter |
| AccountRequests.CreateAccount.AccountToken | generated/async-stripe-connect/src/account/requests.rs:1737-1740 | stores the argument in `account_token`, changes no other field of the request, and adds exactly `account_token` to the serialised names |
| AccountRequests.CreateAccount.BusinessProfile | generated/async-stripe-connect/src/account/requests.rs:1742-1745 | stores the argument in `business_profile`, changes no other field of the request, and adds exactly `business_profile` to the serialised names |
| AccountRequests.CreateAccount.BusinessType | generated/async-stripe-connect/src/account/requests.rs:1748-1751 | stores the argument in `business_type`, changes no other field of the request, and adds exactly `business_type` to the serialised names |
| AccountRequests.CreateAccount.Capabilities | generated/async-stripe-connect/src/account/requests.rs:1760-1763 | stores the argument in `capabilities`, changes no other field of the request, and adds exactly `capabilities` to the serialised names |
| AccountRequests.CreateAccount.Company | generated/async-stripe-connect/src/account/requests.rs:1767-1770 | stores the argument in `company`, changes no other field of the request, and adds exactly `company` to the serialised names |
| AccountRequests.CreateAccount.Controller | generated/async-stripe-connect/src/account/requests.rs:1772-1775 | stores the argument in `controller`, changes no other field of the request, and adds exactly `controller` to the serialised names |
| AccountRequests.CreateAccount.Country | generated/async-stripe-connect/src/account/requests.rs:1780-1783 | stores the argument in `country`, changes no other field of the request, and adds exactly `country` to the serialised names |
| AccountRequests.CreateAccount.DefaultCurrency | generated/async-stripe-connect/src/account/requests.rs:1786-1789 | stores the argument in `default_currency`, changes no other field of the request, and adds exactly `default_currency` to the serialised names |
| AccountRequests.CreateAccount.Documents | generated/async-stripe-connect/src/account/requests.rs:1791-1794 | stores the argument in `documents`, changes no other field of the request, and adds exactly `documents` to the serialised names |
| AccountRequests.CreateAccount.Email | generated/async-stripe-connect/src/account/requests.rs:1798-1801 | stores the argument in `email`, changes no other field of the request, and adds exactly `email` to the serialised names |
| AccountRequests.CreateAccount.Expand | generated/async-stripe-connect/src/account/requests.rs:1803-1806 | stores the argument in `expand`, changes no other field of the request, and adds exactly `expand` to the serialised names |
| AccountRequests.CreateAccount.ExternalAccount | generated/async-stripe-connect/src/account/requests.rs:1814-1817 | stores the argument in `external_account`, changes no other field of the request, and adds exactly `external_account` to the serialised names |
| AccountRequests.CreateAccount.Individual | generated/async-stripe-connect/src/account/requests.rs:1821-1824 | stores the argument in `individual`, changes no other field of the request, and adds exactly `individual` to the serialised names |
| AccountRequests.CreateAccount.Metadata | generated/async-stripe-connect/src/account/requests.rs:1829-1832 | stores the argument in `metadata`, changes no other field of the request, and adds exactly `metadata` to the serialised names |
| AccountRequests.CreateAccount.Settings | generated/async-stripe-connect/src/account/requests.rs:1834-1837 | stores the argument in `settings`, changes no other field of the request, and adds exactly `settings` to the serialised names |
| AccountRequests.CreateAccount.TosAcceptance | generated/async-stripe-connect/src/account/requests.rs:1840-1843 | stores the argument in `tos_acceptance`, changes no other field of the request, and adds exactly `tos_acceptance` to the serialised names |
| AccountRequests.CreateAccount.Type_ | generated/async-stripe-connect/src/account/requests.rs:1845-1848 | stores the argument in `type_`, changes no other field of the request, and adds exactly `type` to the serialised names |
| AccountRequests.CreateAccount.Build | generated/async-stripe-connect/src/account/requests.rs:1876-1878 | POST with the builder as a form body; the path routes back to this operation |
| AccountRequests.UpdateAccountBuilder.New | generated/async-stripe-connect/src/account/requests.rs:1912-1929 | leaves every field unset, so that nothing is serialised |
| AccountRequests.UpdateAccount.New | generated/async-stripe-connect/src/account/requests.rs:2799-2801 | stores the `account` id; serialises no parameter |
| AccountRequests.UpdateAccount.AccountToken | generated/async-stripe-connect/src/account/requests.rs:2803-2806 | stores the argument in `account_token`, changes no other field of the request, and adds exactly `account_token` to the serialised names |
| AccountRequests.UpdateAccount.BusinessProfile | generated/async-stripe-connect/src/account/requests.rs:2808-2811 | stores the argument in `business_profile`, changes no other field of the request, and adds exactly `business_profile` to the serialised names |
| AccountRequests.UpdateAccount.BusinessType | generated/async-stripe-connect/src/account/requests.rs:2814-2817 | stores the argument in `business_type`, changes no other field of the request, and adds exactly `business_type` to the serialised names |
| AccountRequests.UpdateAccount.Capabilities | generated/async-stripe-connect/src/account/requests.rs:2826-2829 | stores the argument in `capabilities`, changes no other field of the request, and adds exactly `capabilities` to the serialised names |
| AccountRequests.UpdateAccount.Company | generated/async-stripe-connect/src/account/requests.rs:2833-2836 | stores the argument in `company`, changes no other field of the request, and adds exactly `company` to the serialised names |
| AccountRequests.UpdateAccount.DefaultCurrency | generated/async-stripe-connect/src/account/requests.rs:2839-2842 | stores the argument in `default_currency`, changes no other field of the request, and adds exactly `default_currency` to the serialised names |
| AccountRequests.UpdateAccount.Documents | generated/async-stripe-connect/src/account/requests.rs:2844-2847 | stores the argument in `documents`, changes no other field of the request, and adds exactly `documents` to the serialised names |
| AccountRequests.UpdateAccount.Email | generated/async-stripe-connect/src/account/requests.rs:2851-2854 | stores the argument in `email`, changes no other field of the request, and adds exactly `email` to the serialised names |
| AccountRequests.UpdateAccount.Expand | generated/async-stripe-connect/src/account/requests.rs:2856-2859 | stores the argument in `expand`, changes no other field of the request, and adds exactly `expand` to the serialised names |
| AccountRequests.UpdateAccount.ExternalAccount | generated/async-stripe-connect/src/account/requests.rs:2867-2870 | stores the argument in `external_account`, changes no other field of the request, and adds exactly `external_account` to the serialised names |
| AccountRequests.UpdateAccount.Individual | generated/async-stripe-connect/src/account/requests.rs:2874-2877 | stores the argument in `individual`, changes no other field of the request, and adds exactly `individual` to the serialised names |
| AccountRequests.UpdateAccount.Metadata | generated/async-stripe-connect/src/account/requests.rs:2882-2885 | stores the argument in `metadata`, changes no other field of the request, and adds exactly `metadata` to the serialised names |
| AccountRequests.UpdateAccount.Settings | generated/async-stripe-connect/src/account/requests.rs:2887-2890 | stores the argument in `settings`, changes no other field of the request, and adds exactly `settings` to the serialised names |
| AccountRequests.UpdateAccount.TosAcceptance | generated/async-stripe-connect/src/account/requests.rs:2893-2896 | stores the argument in `tos_acceptance`, changes no other field of the request, and adds exactly `tos_acceptance` to the serialised names |
| AccountRequests.UpdateAccount.Build | generated/async-stripe-connect/src/account/requests.rs:2919-2922 | POST with the builder as a form body; the path routes back to this operation and its `account`, provided the id holds no `/` |
| AccountRequests.RejectAccountBuilder.New | generated/async-stripe-connect/src/account/requests.rs:2931-2933 | stores `reason` and leaves every optional field unset, so that only it is serialised |
| AccountRequests.RejectAccount.New | generated/async-stripe-connect/src/account/requests.rs:2947-2949 | stores the `account` id; stores `reason`; serialises only `reason` |
| AccountRequests.RejectAccount.Expand | generated/async-stripe-connect/src/account/requests.rs:2951-2954 | stores the argument in `expand`, changes no other field of the request, and adds exactly `expand` to the serialised names |
| AccountRequests.RejectAccount.Build | generated/async-stripe-connect/src/account/requests.rs:2977-2981 | POST with the builder as a form body; the path routes back to this operation and its `account`, provided the id holds no `/` |
| SubscriptionScheduleRequests.LiabilityTypeAsStr | generated/async-stripe-billing/src/subscription_schedule/requests.rs:341-349 | every variant gives one of the listed wire names, the strings `from_str` accepts |
| SubscriptionScheduleRequests.LiabilityTypeFromStr | generated/async-stripe-billing/src/subscription_schedule/requests.rs:351-361 | returns a variant exactly for the strings "account", "self" and `as_str` of that variant is the input; every other string is `StripeParseError` |
| SubscriptionScheduleRequests.LiabilityTypeRoundTrip | generated/async-stripe-billing/src/subscription_schedule/requests.rs:341-361 | `from_str(as_str(v))` is `v` for every variant |
| SubscriptionScheduleRequests.BillingCycleAnchorAsStr | generated/async-stripe-billing/src/subscription_schedule/requests.rs:399-407 | every variant gives one of the listed wire names, the strings `from_str` accepts |
| SubscriptionScheduleRequests.BillingCycleAnchorFromStr | generated/async-stripe-billing/src/subscription_schedule/requests.rs:409-419 | returns a variant exactly for the strings "automatic", "phase_start" and `as_str` of that variant is the input; every other string is `StripeParseError` |
| SubscriptionScheduleRequests.BillingCycleAnchorRoundTrip | generated/async-stripe-billing/src/subscription_schedule/requests.rs:399-419 | `from_str(as_str(v))` is `v` for every variant |
| SubscriptionScheduleRequests.CollectionMethodAsStr | generated/async-stripe-billing/src/subscription_schedule/requests.rs:460-468 | every variant gives one of the listed wire names, the strings `from_str` accepts |
| SubscriptionScheduleRequests.CollectionMethodFromStr | generated/async-stripe-billing/src/subscription_schedule/requests.rs:470-480 | returns a variant exactly for the strings "charge_automatically", "send_invoice" and `as_str` of that variant is the input; every other string is `StripeParseError` |
| SubscriptionScheduleRequests.CollectionMethodRoundTrip | generated/async-stripe-billing/src/subscription_schedule/requests.rs:460-480 | `from_str(as_str(v))` is `v` for every variant |
| SubscriptionScheduleRequests.IssuerTypeAsStr | generated/async-stripe-billing/src/subscription_schedule/requests.rs:560-568 | every variant gives one of the listed wire names, the strings `from_str` accepts |
| SubscriptionScheduleRequests.IssuerTypeFromStr | generated/async-stripe-billing/src/subscription_schedule/requests.rs:570-580 | returns a variant exactly for the strings "account", "self" and `as_str` of that variant is the input; every other string is `StripeParseError` |
| SubscriptionScheduleRequests.IssuerTypeRoundTrip | generated/async-stripe-billing/src/subscription_schedule/requests.rs:560-580 | `from_str(as_str(v))` is `v` for every variant |
| SubscriptionScheduleRequests.TaxBehaviorAsStr | generated/async-stripe-billing/src/subscription_schedule/requests.rs:805-814 | every variant gives one of the listed wire names, the strings `from_str` accepts |
| SubscriptionScheduleRequests.TaxBehaviorFromStr | generated/async-stripe-billing/src/subscription_schedule/requests.rs:816-827 | returns a variant exactly for the strings "exclusive", "inclusive", "unspecified" and `as_str` of that variant is the input; every other string is `StripeParseError` |
| SubscriptionScheduleRequests.TaxBehaviorRoundTrip | generated/async-stripe-billing/src/subscription_schedule/requests.rs:805-827 | `from_str(as_str(v))` is `v` for every variant |
| SubscriptionScheduleRequests.RecurringIntervalAsStr | generated/async-stripe-billing/src/subscription_schedule/requests.rs:1287-1297 | every variant gives one of the listed wire names, the strings `from_str` accepts |
| SubscriptionScheduleRequests.RecurringIntervalFromStr | generated/async-stripe-billing/src/subscription_schedule/requests.rs:1299-1311 | returns a variant exactly for the strings "day", "month", "week", "year" and `as_str` of that variant is the input; every other string is `StripeParseError` |
| SubscriptionScheduleRequests.RecurringIntervalRoundTrip | generated/async-stripe-billing/src/subscription_schedule/requests.rs:1287-1311 | `from_str(as_str(v))` is `v` for every variant |
| SubscriptionScheduleRequests.ProrationBehaviorAsStr | generated/async-stripe-billing/src/subscription_schedule/requests.rs:1419-1428 | every variant gives one of the listed wire names, the strings `from_str` accepts |
| SubscriptionScheduleRequests.ProrationBehaviorFromStr | generated/async-stripe-billing/src/subscription_schedule/requests.rs:2897-2908 | returns a variant exactly for the strings "always_invoice", "create_prorations", "none" and `as_str` of that variant is the input; every other string is `StripeParseError` |
| SubscriptionScheduleRequests.ProrationBehaviorRoundTrip | generated/async-stripe-billing/src/subscription_schedule/requests.rs:1419-2908 | `from_str(as_str(v))` is `v` for every variant |
| SubscriptionScheduleRequests.CreateSubscriptionSchedulePhases.New | generated/async-stripe-billing/src/subscription_schedule/requests.rs:711-736 | stores `items` and leaves every optional field unset, so that only it is serialised |
| SubscriptionScheduleRequests.UpdateSubscriptionSchedulePhases.New | generated/async-stripe-billing/src/subscription_schedule/requests.rs:2091-2117 | stores `items` and leaves every optional field unset, so that only it is serialised |
| SubscriptionScheduleRequests.ListSubscriptionScheduleBuilder.New | generated/async-stripe-billing/src/subscription_schedule/requests.rs:29-42 | leaves every field unset, so that nothing is serialised |
| SubscriptionScheduleRequests.ListSubscriptionSchedule.New | generated/async-stripe-billing/src/subscription_schedule/requests.rs:51-53 | serialises no parameter |
| SubscriptionScheduleRequests.ListSubscriptionSchedule.CanceledAt | generated/async-stripe-billing/src/subscription_schedule/requests.rs:55-58 | stores the argument in `canceled_at`, changes no other field of the request, and adds exactly `canceled_at` to the serialised names |
| SubscriptionScheduleRequests.ListSubscriptionSchedule.CompletedAt | generated/async-stripe-billing/src/subscription_schedule/requests.rs:60-63 | stores the argument in `completed_at`, changes no other field of the request, and adds exactly `completed_at` to the serialised names |
| SubscriptionScheduleRequests.ListSubscriptionSchedule.Created | generated/async-stripe-billing/src/subscription_schedule/requests.rs:65-68 | stores the argument in `created`, changes no other field of the request, and adds exactly `created` to the serialised names |
| SubscriptionScheduleRequests.ListSubscriptionSchedule.Customer | generated/async-stripe-billing/src/subscription_schedule/requests.rs:70-73 | stores the argument in `customer`, changes no other field of the request, and adds exactly `customer` to the serialised names |
| SubscriptionScheduleRequests.ListSubscriptionSchedule.EndingBefore | generated/async-stripe-billing/src/subscription_schedule/requests.rs:77-80 | stores the argument in `ending_before`, changes no other field of the request, and adds exactly `ending_before` to the serialised names |
| SubscriptionScheduleRequests.ListSubscriptionSchedule.Expand | generated/async-stripe-billing/src/subscription_schedule/requests.rs:82-85 | stores the argument in `expand`, changes no other field of the request, and adds exactly `expand` to the serialised names |
| SubscriptionScheduleRequests.ListSubscriptionSchedule.Limit | generated/async-stripe-billing/src/subscription_schedule/requests.rs:88-91 | stores the argument in `limit`, changes no other field of the request, and adds exactly `limit` to the serialised names |
| SubscriptionScheduleRequests.ListSubscriptionSchedule.ReleasedAt | generated/async-stripe-billing/src/subscription_schedule/requests.rs:93-96 | stores the argument in `released_at`, changes no other field of the request, and adds exactly `released_at` to the serialised names |
| SubscriptionScheduleRequests.ListSubscriptionSchedule.Scheduled | generated/async-stripe-billing/src/subscription_schedule/requests.rs:98-101 | stores the argument in `scheduled`, changes no other field of the request, and adds exactly `scheduled` to the serialised names |
| SubscriptionScheduleRequests.ListSubscriptionSchedule.StartingAfter | generated/async-stripe-billing/src/subscription_schedule/requests.rs:105-108 | stores the argument in `starting_after`, changes no other field of the request, and adds exactly `starting_after` to the serialised names |
| SubscriptionScheduleRequests.ListSubscriptionSchedule.Build | generated/async-stripe-billing/src/subscription_schedule/requests.rs:143-145 | GET with the builder as the query string; the path routes back to this operation |
| SubscriptionScheduleRequests.RetrieveSubscriptionScheduleBuilder.New | generated/async-stripe-billing/src/subscription_schedule/requests.rs:153-155 | leaves every field unset, so that nothing is serialised |
| SubscriptionScheduleRequests.RetrieveSubscriptionSchedule.New | generated/async-stripe-billing/src/subscription_schedule/requests.rs:166-168 | stores the `schedule` id; serialises no parameter |
| SubscriptionScheduleRequests.RetrieveSubscriptionSchedule.Expand | generated/async-stripe-billing/src/subscription_schedule/requests.rs:170-173 | stores the argument in `expand`, changes no other field of the request, and adds exactly `expand` to the serialised names |
| SubscriptionScheduleRequests.RetrieveSubscriptionSchedule.Build | generated/async-stripe-billing/src/subscription_schedule/requests.rs:196-200 | GET with the builder as the query string; the path routes back to this operation and its `schedule`, provided the id holds no `/` |
| SubscriptionScheduleRequests.CreateSubscriptionScheduleBuilder.New | generated/async-stripe-billing/src/subscription_schedule/requests.rs:222-233 | leaves every field unset, so that nothing is serialised |
| SubscriptionScheduleRequests.CreateSubscriptionSchedule.New | generated/async-stripe-billing/src/subscription_schedule/requests.rs:1490-1492 | serialises no parameter |
| SubscriptionScheduleRequests.CreateSubscriptionSchedule.Customer | generated/async-stripe-billing/src/subscription_schedule/requests.rs:1494-1497 | stores the argument in `customer`, changes no other field of the request, and adds exactly `customer` to the serialised names |
| SubscriptionScheduleRequests.CreateSubscriptionSchedule.DefaultSettings | generated/async-stripe-billing/src/subscription_schedule/requests.rs:1499-1505 | stores the argument in `default_settings`, changes no other field of the request, and adds exactly `default_settings` to the serialised names |
| SubscriptionScheduleRequests.CreateSubscriptionSchedule.EndBehavior | generated/async-stripe-billing/src/subscription_schedule/requests.rs:1510-1516 | stores the argument in `end_behavior`, changes no other field of the request, and adds exactly `end_behavior` to the serialised names |
| SubscriptionScheduleRequests.CreateSubscriptionSchedule.Expand | generated/async-stripe-billing/src/subscription_schedule/requests.rs:1518-1521 | stores the argument in `expand`, changes no other field of the request, and adds exactly `expand` to the serialised names |
| SubscriptionScheduleRequests.CreateSubscriptionSchedule.FromSubscription | generated/async-stripe-billing/src/subscription_schedule/requests.rs:1526-1529 | stores the argument in `from_subscription`, changes no other field of the request, and adds exactly `from_subscription` to the serialised names |
| SubscriptionScheduleRequests.CreateSubscriptionSchedule.Metadata | generated/async-stripe-billing/src/subscription_schedule/requests.rs:1534-1537 | stores the argument in `metadata`, changes no other field of the request, and adds exactly `metadata` to the serialised names |
| SubscriptionScheduleRequests.CreateSubscriptionSchedule.Phases | generated/async-stripe-billing/src/subscription_schedule/requests.rs:1541-1544 | stores the argument in `phases`, changes no other field of the request, and adds exactly `phases` to the serialised names |
| SubscriptionScheduleRequests.CreateSubscriptionSchedule.StartDate | generated/async-stripe-billing/src/subscription_schedule/requests.rs:1548-1551 | stores the argument in `start_date`, changes no other field of the request, and adds exactly `start_date` to the serialised names |
| SubscriptionScheduleRequests.CreateSubscriptionSchedule.Build | generated/async-stripe-billing/src/subscription_schedule/requests.rs:1579-1581 | POST with the builder as a form body; the path routes back to this operation |
| SubscriptionScheduleRequests.UpdateSubscriptionScheduleBuilder.New | generated/async-stripe-billing/src/subscription_schedule/requests.rs:1599-1608 | leaves every field unset, so that nothing is serialised |
| SubscriptionScheduleRequests.UpdateSubscriptionSchedule.New | generated/async-stripe-billing/src/subscription_schedule/requests.rs:2948-2950 | stores the `schedule` id; serialises no parameter |
| SubscriptionScheduleRequests.UpdateSubscriptionSchedule.DefaultSettings | generated/async-stripe-billing/src/subscription_schedule/requests.rs:2952-2958 | stores the argument in `default_settings`, changes no other field of the request, and adds exactly `default_settings` to the serialised names |
| SubscriptionScheduleRequests.UpdateSubscriptionSchedule.EndBehavior | generated/async-stripe-billing/src/subscription_schedule/requests.rs:2963-2969 | stores the argument in `end_behavior`, changes no other field of the request, and adds exactly `end_behavior` to the serialised names |
| SubscriptionScheduleRequests.UpdateSubscriptionSchedule.Expand | generated/async-stripe-billing/src/subscription_schedule/requests.rs:2971-2974 | stores the argument in `expand`, changes no other field of the request, and adds exactly `expand` to the serialised names |
| SubscriptionScheduleRequests.UpdateSubscriptionSchedule.Metadata | generated/async-stripe-billing/src/subscription_schedule/requests.rs:2979-2982 | stores the argument in `metadata`, changes no other field of the request, and adds exactly `metadata` to the serialised names |
| SubscriptionScheduleRequests.UpdateSubscriptionSchedule.Phases | generated/async-stripe-billing/src/subscription_schedule/requests.rs:2987-2990 | stores the argument in `phases`, changes no other field of the request, and adds exactly `phases` to the serialised names |
| SubscriptionScheduleRequests.UpdateSubscriptionSchedule.ProrationBehavior | generated/async-stripe-billing/src/subscription_schedule/requests.rs:2993-2999 | stores the argument in `proration_behavior`, changes no other field of the request, and adds exactly `proration_behavior` to the serialised names |
| SubscriptionScheduleRequests.UpdateSubscriptionSchedule.Build | generated/async-stripe-billing/src/subscription_schedule/requests.rs:3022-3026 | POST with the builder as a form body; the path routes back to this operation and its `schedule`, provided the id holds no `/` |
| SubscriptionScheduleRequests.CancelSubscriptionScheduleBuilder.New | generated/async-stripe-billing/src/subscription_schedule/requests.rs:3038-3040 | leaves every field unset, so that nothing is serialised |
| SubscriptionScheduleRequests.CancelSubscriptionSchedule.New | generated/async-stripe-billing/src/subscription_schedule/requests.rs:3051-3053 | stores the `schedule` id; serialises no parameter |
| SubscriptionScheduleRequests.CancelSubscriptionSchedule.Expand | generated/async-stripe-billing/src/subscription_schedule/requests.rs:3055-3058 | stores the argument in `expand`, changes no other field of the request, and adds exactly `expand` to the serialised names |
| SubscriptionScheduleRequests.CancelSubscriptionSchedule.InvoiceNow | generated/async-stripe-billing/src/subscription_schedule/requests.rs:3061-3064 | stores the argument in `invoice_now`, changes no other field of the request, and adds exactly `invoice_now` to the serialised names |
| SubscriptionScheduleRequests.CancelSubscriptionSchedule.Prorate | generated/async-stripe-billing/src/subscription_schedule/requests.rs:3067-3070 | stores the argument in `prorate`, changes no other field of the request, and adds exactly `prorate` to the serialised names |
| SubscriptionScheduleRequests.CancelSubscriptionSchedule.Build | generated/async-stripe-billing/src/subscription_schedule/requests.rs:3093-3100 | POST with the builder as a form body; the path routes back to this operation and its `schedule`, provided the id holds no `/` |
| SubscriptionScheduleRequests.ReleaseSubscriptionScheduleBuilder.New | generated/async-stripe-billing/src/subscription_schedule/requests.rs:3110-3112 | leaves every field unset, so that nothing is serialised |
| SubscriptionScheduleRequests.ReleaseSubscriptionSchedule.New | generated/async-stripe-billing/src/subscription_schedule/requests.rs:3124-3126 | stores the `schedule` id; serialises no parameter |
| SubscriptionScheduleRequests.ReleaseSubscriptionSchedule.Expand | generated/async-stripe-billing/src/subscription_schedule/requests.rs:3128-3131 | stores the argument in `expand`, changes no other field of the request, and adds exactly `expand` to the serialised names |
| SubscriptionScheduleRequests.ReleaseSubscriptionSchedule.PreserveCancelDate | generated/async-stripe-billing/src/subscription_schedule/requests.rs:3133-3136 | stores the argument in `preserve_cancel_date`, changes no other field of the request, and adds exactly `preserve_cancel_date` to the serialised names |
| SubscriptionScheduleRequests.ReleaseSubscriptionSchedule.Build | generated/async-stripe-billing/src/subscription_schedule/requests.rs:3159-3166 | POST with the builder as a form body; the path routes back to this operation and its `schedule`, provided the id holds no `/` |
| RefundRequests.OriginAsStr | generated/stripe_core/src/refund/requests.rs:128-135 | every variant gives one of the listed wire names, the strings `from_str` accepts |
| RefundRequests.OriginFromStr | generated/stripe_core/src/refund/requests.rs:137-146 | returns a variant exactly for the strings "customer_balance" and `as_str` of that variant is the input; every other string is `Err(())` |
| RefundRequests.OriginRoundTrip | generated/stripe_core/src/refund/requests.rs:128-146 | `from_str(as_str(v))` is `v` for every variant |
| RefundRequests.ReasonAsStr | generated/stripe_core/src/refund/requests.rs:184-193 | every variant gives one of the listed wire names, the strings `from_str` accepts |
| RefundRequests.ReasonFromStr | generated/stripe_core/src/refund/requests.rs:195-206 | returns a variant exactly for the strings "duplicate", "fraudulent", "requested_by_customer" and `as_str` of that variant is the input; every other string is `Err(())` |
| RefundRequests.ReasonRoundTrip | generated/stripe_core/src/refund/requests.rs:184-206 | `from_str(as_str(v))` is `v` for every variant |
| RefundRequests.ListRefund.New | generated/stripe_core/src/refund/requests.rs:30-32 | is the derived `Default`: every field unset, so that nothing is serialised |
| RefundRequests.ListRefund.Send | generated/stripe_core/src/refund/requests.rs:37-42 | GET with the parameters as the query string; the path routes back to this operation |
| RefundRequests.RetrieveRefund.New | generated/stripe_core/src/refund/requests.rs:54-56 | is the derived `Default`: every field unset, so that nothing is serialised |
| RefundRequests.RetrieveRefund.Send | generated/stripe_core/src/refund/requests.rs:60-66 | GET with the parameters as the query string; the path routes back to this operation and its `refund`, provided the id holds no `/` |
| RefundRequests.CreateRefund.New | generated/stripe_core/src/refund/requests.rs:119-121 | is the derived `Default`: every field unset, so that nothing is serialised |
| RefundRequests.CreateRefund.Send | generated/stripe_core/src/refund/requests.rs:247-249 | POST with the parameters as a form body; the path routes back to this operation |
| RefundRequests.UpdateRefund.New | generated/stripe_core/src/refund/requests.rs:264-266 | is the derived `Default`: every field unset, so that nothing is serialised |
| RefundRequests.UpdateRefund.Send | generated/stripe_core/src/refund/requests.rs:273-279 | POST with the parameters as a form body; the path routes back to this operation and its `refund`, provided the id holds no `/` |
| RefundRequests.CancelRefund.New | generated/stripe_core/src/refund/requests.rs:288-290 | is the derived `Default`: every field unset, so that nothing is serialised |
| RefundRequests.CancelRefund.Send | generated/stripe_core/src/refund/requests.rs:297-303 | POST with the parameters as a form body; the path routes back to this operation and its `refund`, provided the id holds no `/` |
| RefundRequests.ExpireRefund.New | generated/stripe_core/src/refund/requests.rs:312-314 | is the derived `Default`: every field unset, so that nothing is serialised |
| RefundRequests.ExpireRefund.Send | generated/stripe_core/src/refund/requests.rs:318-328 | POST with the parameters as a form body; the path routes back to this operation and its `refund`, provided the id holds no `/` |

## Left out

- TLS connectors, the hyper client and its shared connection pool (async-stripe/src/client/base/tokio.rs:13-78): library configuration, not logic.
- `convert_request` and its tests (async-stripe/src/client/base/tokio.rs:187-259): conversions between the request types of http_types, http and hyper.
- `sleep` and the futures around the loop: time is not modelled. The delay the strategy returns is only recorded in the trace of attempts.
- `RequestStrategy::test` and `get_key` (crate::client::request_strategy) are not part of this model. The strategy is an arbitrary oracle, and every test-suite lemma states what it assumes of it. No backoff curve and no 4xx policy is assumed.
- Executor.SendInner: assumes the strategy stops after `bound` tries (`StopsBy`). The source has no such bound of its own. With a strategy that never stops, and replies the loop keeps going round on, the source loops forever.
- Executor.SendInner: the client's reply may depend only on the attempt number, not on the request. Every attempt sends the same request anyway (`Send`).
- Executor.StripeError: `StripeError::from` of a hyper or an http_types error keeps the error as it is. The variant the crate's `From` impls choose is not part of this model.
- Executor.Request: headers are a map from name to one value, compared without case folding. `insert_header` replaces an existing value, as http_types does.
- Executor.HeaderValue: `HeaderValue::to_str`'s check for visible ASCII is left abstract, as the `Opaque` value.
- UTF-8 validation, the miniserde parse of `stripe_shared::Error` and of response types, and `StatusCode::try_from` are abstract functions.
- The miniserde `Visitor`/`Place`/`begin` plumbing, the serde `Serialize`/`Deserialize` impls and the `Display`/`Debug` delegations: library glue. `from_value`, `take_out`, `as_str` and `from_str` are modelled directly.
- The `Deserialize` impl of the open `*CompanyStructure` enum always succeeds because its `from_str` is total. It is glue like the others.
- ReportIdNumberOptions.Builder.DeserDefault: the builder of the field-less `GelatoReportIdNumberOptions` has no slots, so its constructor has no state to state anything about. Its effect shows in `TakeOut` and `FromValue`, which always succeed on an object.
- The `FromValueOpt` leaf conversions of stripe_types, such as numbers, strings, ids and nested objects: abstract partial functions, one per field, in each file's `Leaves`.
- Floating-point fields are values of an abstract type.
- The query and form encoding inside `RequestBuilder`, and the `send`, `send_blocking` and `paginate` wrappers of the request structs live in stripe_client_core and `ListPaginator`, outside this model. Only the method, the path and how the parameters travel are modelled.
- The refund `ListRefund::paginate` is not part of this model, for the same reason.
- The untagged `*StartDate`, `*EndDate` and `*TrialEnd` enums of the schedule requests, `RangeQueryTs`, `Currency` and the nested parameter structs other than `*Phases` are abstract types. Their serialisation is not part of this model.
- The `new` functions of the nested parameter structs other than the two `*Phases` structs. They are the same shape as the modelled ones.
- `Route` reads ids back only when they hold no `/`. Every `Build`/`Send` round trip is stated under that condition. The source puts ids into the path unescaped.
- The `login_link` requests (generated/stripe_connect/src/login_link/requests.rs) are context for this model, not part of it.
- JSON objects are sequences of entries. A miniserde object has each key once, and the sequence also allows repeats. Every proved property holds for any order and any repetition.
