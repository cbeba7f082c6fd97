# Resolved cash-flow values and swap-leg valuation, modelled in Dafny

This project models three pieces of the OpenGamma Strata valuation core.

- **`ResetSchedule`** is the policy that places reset (fixing) dates inside each accrual period of a floating leg. It has three fields: a reset frequency, a business-day adjustment, and a rate-averaging method. The averaging method is unweighted or weighted, as in article 6.2a of the 2006 ISDA Definitions. The model covers the immutable value and its generated builder:
  - the builder defaults the averaging method to unweighted;
  - the typed setters reject null;
  - the name-keyed `set`/`get` work through a switch on the property name's hash code;
  - `build()` checks every field for null;
  - the model also covers `toBuilder()` and `equals`.
- **`ResolvedCdsTrade`** is a credit default swap trade resolved for pricing. It uses the same builder pattern with three differences: `info` defaults to the empty trade information, `product` is mandatory, and the upfront fee is optional. The fee is stored as a nullable reference and read back as an `Optional`.
- **`DefaultExpandedSwapLegPricerFn`** values an expanded swap leg. The value is the sum of a period pricer over the leg's payment periods plus the sum of an event pricer over its payment events, all priced against one pricing environment. Present value and future value differ only in which pair of pricer functions is used.

The model has six modules, one file each:

- `Beans` (`beans.dfy`) defines what the generated beans share: `Nullable` for Java references that may be null, `Option` for `java.util.Optional`, `Result`, the thrown `Exception`s, the null check, and the skeleton of the name-keyed `get(String)` and `set(String, Object)` once a property has been chosen.
- `JavaString` (`java_string.dfy`) defines `String.hashCode` with its 32-bit wrap-around. The fold runs over UTF-16 code units, so a character above U+FFFF counts as its surrogate pair. The module also proves the collision property used below.
- `PropertyHashes` (`property_hashes.dfy`) computes the hash codes of the six property names.
- `ResetSchedules`, `ResolvedCdsTrades` and `SwapLegPricing` model the three source files.

A mutable builder is a datatype of its field values. Each builder call is a function from that state to a `Step`: the state after the call plus the exception thrown, if any. So "a rejected call leaves the builder unchanged" is a checked contract. The opaque field types are abstract types. These are `Frequency`, `BusinessDayAdjustment`, `TradeInfo`, `ResolvedCds`, `Payment`, `PricingEnvironment`, the period and event types, and the pricers' failures. Component pricers are function-valued parameters that return `Result<real, PricingFailure>`, so a failing pricer is an `Err`.

The leg fold `SwapLegPricing.Sum` values the components front to back. Its partner is the independent reference total `PricedTotal`, which adds from the back. `Sum`'s contract ties the two together for every input, and also fixes which failure wins: the first failing component's.

## Model

| member | source | states |
|---|---|---|
| `Beans.NotNull` | modules/product/src/main/java/com/opengamma/strata/product/credit/ResolvedCdsTrade.java:109-110 | a null argument fails with an illegal-argument error naming it; any other value passes through unchanged |
| `Beans.OfNullable` | modules/product/src/main/java/com/opengamma/strata/product/credit/ResolvedCdsTrade.java:165-167 | `Optional.ofNullable` gives absence exactly for null, and otherwise the same object |
| `JavaString.HashCode` | modules/finance/src/main/java/com/opengamma/platform/finance/swap/ResetSchedule.java:387 | the name's hash is a signed 32-bit value that agrees modulo 2^32 with the wrapped `31 * h + u` fold over the name's UTF-16 code units |
| `JavaString.CodeUnitsOf` | modules/finance/src/main/java/com/opengamma/platform/finance/swap/ResetSchedule.java:387 | a character below U+10000 is one code unit equal to itself; any other is exactly two units, a high surrogate then a low surrogate that together encode it |
| `JavaString.CodeUnitsAppend` | modules/finance/src/main/java/com/opengamma/platform/finance/swap/ResetSchedule.java:387 | the UTF-16 encoding of a concatenation is the concatenation of the encodings |
| `JavaString.UnsignedHashIsUtf16Fold` | modules/finance/src/main/java/com/opengamma/platform/finance/swap/ResetSchedule.java:387 | the character-by-character hash equals the plain `31 * h + u` fold over the whole UTF-16 encoding of the name |
| `JavaString.AdjacentPairCollision` | modules/finance/src/main/java/com/opengamma/platform/finance/swap/ResetSchedule.java:387 | raising one character by 1 and lowering the next by 31 leaves the hash unchanged when all four characters are below U+10000 (one code unit each), wherever the pair sits, so distinct names can share a hash |
| `ResetSchedules.Create` | modules/finance/src/main/java/com/opengamma/platform/finance/swap/ResetSchedule.java:111-121 | construction succeeds iff all three fields are non-null; the fields are stored as given; otherwise the first null field, in declaration order, is reported |
| `ResetSchedules.Equals` | modules/finance/src/main/java/com/opengamma/platform/finance/swap/ResetSchedule.java:192-203 | `equals` holds exactly for a non-null schedule equal to this one, i.e. the same three fields |
| `ResetSchedules.EqualityIsFieldwise` | modules/finance/src/main/java/com/opengamma/platform/finance/swap/ResetSchedule.java:192-203 | two schedules are equal iff their three fields are pairwise equal; equality is symmetric; nothing equals null |
| `ResetSchedules.SetResetFrequency` | modules/finance/src/main/java/com/opengamma/platform/finance/swap/ResetSchedule.java:441-445 | a null throws an illegal-argument error and the builder is unchanged; otherwise only `resetFrequency` changes |
| `ResetSchedules.SetResetBusinessDayAdjustment` | modules/finance/src/main/java/com/opengamma/platform/finance/swap/ResetSchedule.java:452-456 | a null throws an illegal-argument error and the builder is unchanged; otherwise only the adjustment changes |
| `ResetSchedules.SetRateAveragingMethod` | modules/finance/src/main/java/com/opengamma/platform/finance/swap/ResetSchedule.java:463-467 | a null throws an illegal-argument error and the builder is unchanged; otherwise only the averaging method changes |
| `ResetSchedules.NewBuilder` | modules/finance/src/main/java/com/opengamma/platform/finance/swap/ResetSchedule.java:84-87 | a fresh builder has the averaging method UNWEIGHTED and both mandatory fields unset |
| `ResetSchedules.ToBuilder` | modules/finance/src/main/java/com/opengamma/platform/finance/swap/ResetSchedule.java:364-368 | the copy holds all three fields, with no defaults applied, and building it gives back the original schedule |
| `ResetSchedules.Build` | modules/finance/src/main/java/com/opengamma/platform/finance/swap/ResetSchedule.java:427-433 | `build()` succeeds iff all three builder fields are set; the getters then return exactly those fields; otherwise the first unset field is reported |
| `ResetSchedules.BuildThenCopy` | modules/finance/src/main/java/com/opengamma/platform/finance/swap/ResetSchedule.java:364-368 | a built schedule copies back into exactly the builder it came from |
| `ResetSchedules.FreshBuilderLifecycle` | modules/finance/src/main/java/com/opengamma/platform/finance/swap/ResetSchedule.java:356-358 | a fresh builder fails to build with no mandatory field set and with only one set; with both set it builds with UNWEIGHTED averaging |
| `ResetSchedules.Named` | modules/finance/src/main/java/com/opengamma/platform/finance/swap/ResetSchedule.java:386-399 | exact-name dispatch: the property whose name is the given string, or none when no property has that name |
| `ResetSchedules.Switched` | modules/finance/src/main/java/com/opengamma/platform/finance/swap/ResetSchedule.java:387-399 | the generated switch picks a property exactly when the name's hash equals that property name's hash, and none otherwise; the labels are distinct, so a name sharing property p's hash always picks p |
| `ResetSchedules.FieldValue` | modules/finance/src/main/java/com/opengamma/platform/finance/swap/ResetSchedule.java:373-379 | the object `get` returns for a property is always castable to that property's class |
| `ResetSchedules.Assign` | modules/finance/src/main/java/com/opengamma/platform/finance/swap/ResetSchedule.java:388-396 | the cast succeeds iff the value is null or of the property's class; the field then holds the value with no null check; other fields keep their values; otherwise a class-cast error |
| `Beans.SetSelected` | modules/finance/src/main/java/com/opengamma/platform/finance/swap/ResetSchedule.java:386-400 | once the switch has chosen a property, or none: no property means `NoSuchElementException` "Unknown property"; otherwise the call succeeds exactly when the assignment does, and a failed cast throws the assignment's own `ClassCastException`; any thrown exception leaves the builder unchanged |
| `Beans.GetSelected` | modules/finance/src/main/java/com/opengamma/platform/finance/swap/ResetSchedule.java:372-383 | fails, with "Unknown property", exactly when no property was chosen; otherwise returns the chosen field |
| `ResetSchedules.SetProperty` | modules/finance/src/main/java/com/opengamma/platform/finance/swap/ResetSchedule.java:386-401 | an unknown name throws no-such-element; a wrong class throws class-cast; otherwise the named field takes the value, null included, and the other fields keep their values |
| `ResetSchedules.SetPropertyAsWritten` | modules/finance/src/main/java/com/opengamma/platform/finance/swap/ResetSchedule.java:386-401 | the switch as written: a name whose hash is no property's throws "Unknown property"; a name sharing property p's hash casts to p's class, then stores the value in p, null included, leaving the other fields alone; a failed cast throws; any throw leaves the builder unchanged |
| `ResetSchedules.GetProperty` | modules/finance/src/main/java/com/opengamma/platform/finance/swap/ResetSchedule.java:372-383 | an unknown name throws no-such-element; a property name returns that field, null included |
| `ResetSchedules.GetPropertyAsWritten` | modules/finance/src/main/java/com/opengamma/platform/finance/swap/ResetSchedule.java:372-383 | the switch as written: a name whose hash is no property's throws "Unknown property"; a name sharing property p's hash returns p's field |
| `ResetSchedules.TypedSettersAgreeWithNamed` | modules/finance/src/main/java/com/opengamma/platform/finance/swap/ResetSchedule.java:441-467 | on a non-null value each typed setter does exactly what `set(name, value)` does |
| `ResetSchedules.NamedSetterDefersNullCheck` | modules/finance/src/main/java/com/opengamma/platform/finance/swap/ResetSchedule.java:386-401 | `set(name, null)` is accepted where the typed setter throws, and `build()` then fails |
| `ResetSchedules.GetAfterSet` | modules/finance/src/main/java/com/opengamma/platform/finance/swap/ResetSchedule.java:372-401 | `get` returns what `set` stored under the same name; every other name reads as before |
| `ResetSchedules.SwitchLabels` | modules/finance/src/main/java/com/opengamma/platform/finance/swap/ResetSchedule.java:374-379 | the case labels 101322957, -1777046470 and 154998811 are the hash codes of the three property names |
| `ResetSchedules.SwitchAgreesOffCollisions` | modules/finance/src/main/java/com/opengamma/platform/finance/swap/ResetSchedule.java:386-399 | the switch as written agrees with exact-name dispatch for every property name and every name whose hash is not a label |
| `ResetSchedules.CollidingNameReachesResetFrequency` | modules/finance/src/main/java/com/opengamma/platform/finance/swap/ResetSchedule.java:386-399 | "sFsetFrequency" is not a property, yet the switch as written sets and gets `resetFrequency` under it |
| `ResolvedCdsTrades.Create` | modules/product/src/main/java/com/opengamma/strata/product/credit/ResolvedCdsTrade.java:105-114 | construction succeeds iff `info` and `product` are non-null, whatever the fee; the fee is stored as given, null included |
| `ResolvedCdsTrades.GetUpfrontFee` | modules/product/src/main/java/com/opengamma/strata/product/credit/ResolvedCdsTrade.java:165-167 | the fee is absent exactly when the stored fee is null, and otherwise is the stored payment |
| `ResolvedCdsTrades.Equals` | modules/product/src/main/java/com/opengamma/strata/product/credit/ResolvedCdsTrade.java:178-190 | `equals` holds exactly for a non-null trade with equal info, product and fee, a null fee matching only a null fee |
| `ResolvedCdsTrades.EqualityIsFieldwise` | modules/product/src/main/java/com/opengamma/strata/product/credit/ResolvedCdsTrade.java:178-190 | equality iff the three fields are pairwise equal; symmetric; nothing equals null; with and without a fee are unequal |
| `ResolvedCdsTrades.NewBuilder` | modules/product/src/main/java/com/opengamma/strata/product/credit/ResolvedCdsTrade.java:73-76 | a fresh builder has the empty trade info, no product and no fee |
| `ResolvedCdsTrades.SetInfo` | modules/product/src/main/java/com/opengamma/strata/product/credit/ResolvedCdsTrade.java:442-446 | a null throws an illegal-argument error and the builder is unchanged; otherwise only `info` changes |
| `ResolvedCdsTrades.SetProduct` | modules/product/src/main/java/com/opengamma/strata/product/credit/ResolvedCdsTrade.java:455-459 | a null throws an illegal-argument error and the builder is unchanged; otherwise only `product` changes |
| `ResolvedCdsTrades.SetUpfrontFee` | modules/product/src/main/java/com/opengamma/strata/product/credit/ResolvedCdsTrade.java:471-474 | never throws; the fee becomes the argument, so a null clears it; the other fields are unchanged |
| `ResolvedCdsTrades.ToBuilder` | modules/product/src/main/java/com/opengamma/strata/product/credit/ResolvedCdsTrade.java:351-355 | the copy holds all three fields, keeping an absent fee absent, and building it gives back the original trade |
| `ResolvedCdsTrades.Build` | modules/product/src/main/java/com/opengamma/strata/product/credit/ResolvedCdsTrade.java:427-432 | `build()` succeeds iff `info` and `product` are set, whatever the fee; fields are kept exactly; otherwise `info`, then `product`, is reported |
| `ResolvedCdsTrades.BuildThenCopy` | modules/product/src/main/java/com/opengamma/strata/product/credit/ResolvedCdsTrade.java:351-355 | a built trade copies back into exactly the builder it came from |
| `ResolvedCdsTrades.CopyKeepsFee` | modules/product/src/main/java/com/opengamma/strata/product/credit/ResolvedCdsTrade.java:174-176 | `toBuilder().build()` keeps `getUpfrontFee()`: absent stays absent |
| `ResolvedCdsTrades.FreshBuilderLifecycle` | modules/product/src/main/java/com/opengamma/strata/product/credit/ResolvedCdsTrade.java:343-345 | a fresh builder fails only for want of a product; with a product it builds a trade with the empty info and no fee |
| `ResolvedCdsTrades.FeeNeverBlocksBuild` | modules/product/src/main/java/com/opengamma/strata/product/credit/ResolvedCdsTrade.java:427-432 | whether `build()` succeeds does not depend on the fee; clearing the fee changes only the fee |
| `ResolvedCdsTrades.Named` | modules/product/src/main/java/com/opengamma/strata/product/credit/ResolvedCdsTrade.java:373-386 | exact-name dispatch: the property whose name is the given string, or none |
| `ResolvedCdsTrades.Switched` | modules/product/src/main/java/com/opengamma/strata/product/credit/ResolvedCdsTrade.java:374-386 | the generated switch picks a property exactly when the name's hash equals that property name's hash; the labels are distinct, so a name sharing property p's hash always picks p |
| `ResolvedCdsTrades.FieldValue` | modules/product/src/main/java/com/opengamma/strata/product/credit/ResolvedCdsTrade.java:360-366 | the object `get` returns for a property is always castable to that property's class |
| `ResolvedCdsTrades.Assign` | modules/product/src/main/java/com/opengamma/strata/product/credit/ResolvedCdsTrade.java:375-383 | the cast succeeds iff the value is null or of the property's class; the field then holds the value with no null check; other fields keep their values; otherwise a class-cast error |
| `ResolvedCdsTrades.SetProperty` | modules/product/src/main/java/com/opengamma/strata/product/credit/ResolvedCdsTrade.java:372-388 | an unknown name throws no-such-element; a wrong class throws class-cast; otherwise the named field takes the value, null included, and the other fields keep their values |
| `ResolvedCdsTrades.SetPropertyAsWritten` | modules/product/src/main/java/com/opengamma/strata/product/credit/ResolvedCdsTrade.java:372-388 | the switch as written: a name whose hash is no property's throws "Unknown property"; a name sharing property p's hash casts to p's class, then stores the value in p, null included, leaving the other fields alone; a failed cast throws; any throw leaves the builder unchanged |
| `ResolvedCdsTrades.GetProperty` | modules/product/src/main/java/com/opengamma/strata/product/credit/ResolvedCdsTrade.java:358-370 | an unknown name throws no-such-element; a property name returns that field, null included |
| `ResolvedCdsTrades.GetPropertyAsWritten` | modules/product/src/main/java/com/opengamma/strata/product/credit/ResolvedCdsTrade.java:358-370 | the switch as written: a name whose hash is no property's throws "Unknown property"; a name sharing property p's hash returns p's field |
| `ResolvedCdsTrades.TypedSettersAgreeWithNamed` | modules/product/src/main/java/com/opengamma/strata/product/credit/ResolvedCdsTrade.java:442-474 | on non-null values the typed setters match `set(name, value)`; for the fee they match on null too |
| `ResolvedCdsTrades.NamedSetterDefersNullCheck` | modules/product/src/main/java/com/opengamma/strata/product/credit/ResolvedCdsTrade.java:372-388 | a null `info` or `product` is accepted by `set(name, null)` though the typed setter throws; `build()` then fails |
| `ResolvedCdsTrades.GetAfterSet` | modules/product/src/main/java/com/opengamma/strata/product/credit/ResolvedCdsTrade.java:358-388 | `get` returns what `set` stored under the same name; every other name reads as before |
| `ResolvedCdsTrades.SwitchLabels` | modules/product/src/main/java/com/opengamma/strata/product/credit/ResolvedCdsTrade.java:361-366 | the case labels 3237038, -309474065 and 963468344 are the hash codes of "info", "product" and "upfrontFee" |
| `ResolvedCdsTrades.SwitchAgreesOffCollisions` | modules/product/src/main/java/com/opengamma/strata/product/credit/ResolvedCdsTrade.java:372-388 | the switch as written agrees with exact-name dispatch for every property name and every name whose hash is not a label |
| `ResolvedCdsTrades.SupplementaryNameReachesInfo` | modules/product/src/main/java/com/opengamma/strata/product/credit/ResolvedCdsTrade.java:358-388 | a name opening with U+10000 hashes, through its surrogate pair, to the `info` label, so the switch as written reads and sets `info` under it |
| `ResolvedCdsTrades.CollidingNameReachesInfo` | modules/product/src/main/java/com/opengamma/strata/product/credit/ResolvedCdsTrade.java:372-388 | "jOfo" is not a property, yet the switch as written can null out `info` under it |
| `SwapLegPricing.NewLegPricer` | modules/pricer-impl/src/main/java/com/opengamma/platform/pricer/impl/swap/DefaultExpandedSwapLegPricerFn.java:49-54 | construction fails iff either pricer is null, checking the period pricer first; otherwise both are kept |
| `SwapLegPricing.PricedTotalFront` | modules/pricer-impl/src/main/java/com/opengamma/platform/pricer/impl/swap/DefaultExpandedSwapLegPricerFn.java:73-75 | the reference total splits off its first component as well as its last |
| `SwapLegPricing.Sum` | modules/pricer-impl/src/main/java/com/opengamma/platform/pricer/impl/swap/DefaultExpandedSwapLegPricerFn.java:73-78 | the stream sum succeeds iff every component is priced, and then equals the reference total; otherwise it reports the first failing component's failure |
| `SwapLegPricing.Value` | modules/pricer-impl/src/main/java/com/opengamma/platform/pricer/impl/swap/DefaultExpandedSwapLegPricerFn.java:68-80 | the leg value succeeds iff every period and event is priced, and is then period total plus event total; a failing period is reported before any event failure |
| `SwapLegPricing.PresentValue` | modules/pricer-impl/src/main/java/com/opengamma/platform/pricer/impl/swap/DefaultExpandedSwapLegPricerFn.java:58-60 | succeeds iff all present values exist, and is then the sum of period present values plus event present values |
| `SwapLegPricing.FutureValue` | modules/pricer-impl/src/main/java/com/opengamma/platform/pricer/impl/swap/DefaultExpandedSwapLegPricerFn.java:63-65 | succeeds iff all future values exist, and is then the sum of period future values plus event future values |
| `SwapLegPricing.EmptyLegIsZero` | modules/pricer-impl/src/main/java/com/opengamma/platform/pricer/impl/swap/DefaultExpandedSwapLegPricerFn.java:73-79 | a leg with no periods and no events has present and future value exactly 0, in any environment |
| `SwapLegPricing.MissingHalfContributesNothing` | modules/pricer-impl/src/main/java/com/opengamma/platform/pricer/impl/swap/DefaultExpandedSwapLegPricerFn.java:73-79 | with no events the leg is worth its period sum, and with no periods its event sum |
| `SwapLegPricing.SumConcat` | modules/pricer-impl/src/main/java/com/opengamma/platform/pricer/impl/swap/DefaultExpandedSwapLegPricerFn.java:73-78 | summing `a + b` succeeds iff both parts do and then adds them; a failure in `a` wins over one in `b` |
| `SwapLegPricing.ValueIsAdditive` | modules/pricer-impl/src/main/java/com/opengamma/platform/pricer/impl/swap/DefaultExpandedSwapLegPricerFn.java:68-80 | joining two legs' periods and events gives a leg that is valued iff both are, at the sum of their values |
| `SwapLegPricing.ValueIgnoresOrder` | modules/pricer-impl/src/main/java/com/opengamma/platform/pricer/impl/swap/DefaultExpandedSwapLegPricerFn.java:73-79 | swapping the two blocks of periods and the two blocks of events changes neither success nor value |
| `SwapLegPricing.OneFailureFailsTheLeg` | modules/pricer-impl/src/main/java/com/opengamma/platform/pricer/impl/swap/DefaultExpandedSwapLegPricerFn.java:73-79 | if any one period or event fails to price, the whole leg valuation fails |
| `SwapLegPricing.SumDependsOnlyOnComponents` | modules/pricer-impl/src/main/java/com/opengamma/platform/pricer/impl/swap/DefaultExpandedSwapLegPricerFn.java:73-78 | the sum depends only on the pricer's results for these components in the given environment, failures included |
| `SwapLegPricing.PresentAndFutureShareTheFold` | modules/pricer-impl/src/main/java/com/opengamma/platform/pricer/impl/swap/DefaultExpandedSwapLegPricerFn.java:58-65 | present and future value run the same fold: where the two kinds of component value coincide, so do the leg values |
| `SwapLegPricing.ThreeComponentLeg` | modules/pricer-impl/src/main/java/com/opengamma/platform/pricer/impl/swap/DefaultExpandedSwapLegPricerFn.java:68-80 | periods worth 100 and 50 plus an event worth -200 give a present value of -50 |

## Left out

- Joda-Beans meta machinery is not modelled, because it is reflection scaffolding with no domain behaviour. This covers `meta()`, `metaBean()`, `property`, `propertyNames`, the `Meta` classes with their `metaPropertyGet`/`propertyGet`/`propertySet`, and meta-bean registration.
- `set(MetaProperty, Object)`, `setString` and `setAll` are not modelled, because they delegate to a library that is not part of this model. `toString` is not modelled, because it is cosmetic.
- `hashCode` of both beans is not modelled, because its exact 32-bit arithmetic on field hashes says nothing about the domain. Equal values trivially hash alike in a model where the hash is a function of the fields.
- `Serializable` and `serialVersionUID` are not modelled, because they carry no behaviour.
- A null property name passed to `get`/`set` is not modelled: its `NullPointerException` comes from `String.hashCode`, and names are plain strings here.
- A property name holding an unpaired surrogate is not modelled. A Java `String` may hold one, and `hashCode` folds it as a single code unit. A Dafny string is a sequence of Unicode scalar values and cannot hold one, so every name here is well-formed UTF-16. This applies to `get`/`set`, `SwitchAgreesOffCollisions` and the collision lemmas.
- `equals` against an object of another class is not modelled, because the model compares only with a nullable value of the same bean type. Such a call returns false in the source. The `obj == this` shortcut is subsumed by structural equality.
- Exception messages are not modelled word for word: an exception carries only the argument or property name it reports.
- `TradeInfo.empty()` is code this model cannot see, so `ResolvedCdsTrades.NewBuilder` takes it as a parameter.
- The upfront fee's sign is not checked against the product's pay/receive flag. The source states this only in a comment and never enforces it, so the model does not invent the check.
- The rule that the reset frequency must not exceed the accrual frequency is not modelled, because the source documents it but never checks it. Reset-date generation is not part of this model.
- The dispatching period/event pricers and the `DEFAULT` singleton wiring are not part of this model. The component pricers are parameters.
- `SwapLegPricing.Sum`: amounts are `real`, not IEEE-754 `double`. `DoubleStream.sum()` adds with compensated floating-point summation, so the additivity and order-independence lemmas hold in the real-valued abstraction only.
- `SwapLegPricing.PresentValue`: its contract states success and the amount only. Which failure is reported is stated on `SwapLegPricing.Value`, which it calls.
- `SwapLegPricing.FutureValue`: its contract states success and the amount only. Which failure is reported is stated on `SwapLegPricing.Value`, which it calls.
- A null `ExpandedSwapLeg` is not modelled: `presentValue(env, null)` and `futureValue(env, null)` throw a `NullPointerException` at `swapLeg.getPaymentPeriods()` (DefaultExpandedSwapLegPricerFn.java:73), and a leg here is always a value.
- The name-keyed `set(String, Object)` stores a null without a check, like any other value it can cast (ResetSchedule.java:386-401). Only `build()` then rejects a null mandatory field. The model follows this (`ResetSchedules.NamedSetterDefersNullCheck`).
- The Javadoc of `rateAveragingMethod` says it is "defaulted to 'Unweighted'" (ResetSchedule.java:71). `applyDefaults` (84-87) runs only in the builder's no-argument constructor (356-357), so a later `set("rateAveragingMethod", null)` is not re-defaulted, and `build()` then fails. The model follows this.

## Findings

| source | as written | input that shows it | evidently intended | confidence | as-written member | corrected member |
|---|---|---|---|---|---|---|
| modules/finance/src/main/java/com/opengamma/platform/finance/swap/ResetSchedule.java:372-401 | the builder's `get(String)` and `set(String, Object)` switch on `propertyName.hashCode()` alone and never compare the name itself | `set("sFsetFrequency", f)`: "sFsetFrequency" has hash 101322957, the same as "resetFrequency", so the call assigns `resetFrequency` instead of throwing | a name that is not a property throws `NoSuchElementException("Unknown property: ...")`, as the default branch says | medium; not executed | `ResetSchedules.SetPropertyAsWritten`, shown by `ResetSchedules.CollidingNameReachesResetFrequency` | `ResetSchedules.SetProperty` |
| modules/product/src/main/java/com/opengamma/strata/product/credit/ResolvedCdsTrade.java:358-388 | the builder's `get(String)` and `set(String, Object)` switch on `propertyName.hashCode()` alone and never compare the name itself | `set("jOfo", null)`: "jOfo" has hash 3237038, the same as "info", so the call clears `info` instead of throwing. A name opening with U+10000 reaches `info` the same way (`ResolvedCdsTrades.SupplementaryNameReachesInfo`) | a name that is not a property throws `NoSuchElementException("Unknown property: ...")`, as the default branch says | medium; not executed | `ResolvedCdsTrades.SetPropertyAsWritten`, shown by `ResolvedCdsTrades.CollidingNameReachesInfo` | `ResolvedCdsTrades.SetProperty` |
