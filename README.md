# COVO in Dafny

COVO is a marketplace where brands run campaigns and influencers apply to them or are invited. It has three parts: a Next.js client, an Express/Mongoose server, and a small Python helper that talks to OpenAI. This project models the parts of COVO whose behaviour is a precise rule set or a small state machine, and proves properties of them:

- **Python settings** (`OpenAIConfig`): the declared defaults, and the environment-override step that `Settings.__init__` runs.
- **Campaigns and invitations** (`Campaigns`, `CampaignControllers`): follower tiers, pagination, applying and inviting with at most one invitation per campaign and influencer, the accept/reject transitions of both sides, edits within five hours, soft deletion, and the guards and query defaults of the HTTP handlers.
- **Subscriptions** (`Subscriptions`, `Webhook`, `SubscriptionUtils`, `AuthSubscription`): create, activate, cancel, change and renew; the expiry sweep; the statistics; the payment-provider webhook; plan and feature checks; and the route guard.
- **Payments** (`Payments`, `Paystack`): the 8 % commission split, payout routing with the wallet as fallback, the wallet ledger and withdrawals, bank-account registration, and naira/kobo conversion.
- **Server utilities** (`PlatformUtil`, `CampaignAnalytics`, `ClickLogs`, `TokenMaintenance`): URL platform detection and post-ID extraction, "1.2K"-style numbers, the campaign-analytics fold, referral-click de-duplication, and the Instagram/YouTube token-maintenance jobs.
- **Client forms and widgets**:
  - the four Zod schemas;
  - the contact, login, forgot-password and sign-up forms, with the consent checkboxes;
  - the brand and influencer profile wizards and the campaign wizard;
  - the tag input and the sorted option lists;
  - the score hook and its two badges;
  - the location picker and the invitations dialog.

Each core source file is one Dafny module; `Common` holds the shared vocabulary. Code that transforms values is modelled as functions and lemmas. Code that updates state in place is modelled as classes whose methods change their fields. The Mongo collections, the React state and the parent's props are such fields. Each method is specified by a pure outcome function of the old state, and the properties are proved about those functions.

The following are parameters of the model, not defined by it:

- the clock (`now`, the current year);
- database failures in the token jobs and of the subscription webhook's update;
- HTTP and provider results (Paystack, `signIn`, the client's route wrappers), a thrown exception included;
- Zod's `.email()` and `.url()` checks;
- HMAC-SHA512;
- `isValidObjectId`;
- float parsing;
- `Math.random`;
- calendar "one month/year later".

Numbers are exact integers or reals. Strings are sequences of characters; case mapping covers the ASCII letters.

Where the specification and the code disagree, the model follows the code:

- `OpenAI/config.py` reads `OPENAI_API_KEY` and `MONGODB_URI`, not `API_KEY` and `DATABASE_URI`.
- An unparsable `MAX_TOKENS` gives the literal 1000, not the value resolved before.
- A parsed `MAX_TOKENS` is taken without a positivity check.

## Model

| member | source | states |
|---|---|---|
| `OpenAIConfig.Declared` | OpenAI/config.py:8-20 | the declared defaults: model "gpt-4o-mini", 1000 tokens, temperature 0.7, rate limit 60, timeout 30; key and URI as given |
| `OpenAIConfig.DecimalIsGroup` | OpenAI/config.py:31 | every rendered natural number is a digit group `int()` accepts, with that value |
| `OpenAIConfig.PyIntOfDecimal` | OpenAI/config.py:31 | `int(str(n)) == n` for every integer `n` |
| `OpenAIConfig.PyIntNegativeExample` | OpenAI/config.py:31 | `int("-5")` is -5: no positivity check |
| `OpenAIConfig.PyIntRejectsWord` | OpenAI/config.py:31-33 | `int("many")` raises |
| `OpenAIConfig.Settings.constructor` | OpenAI/config.py:22-40 | the new settings are the resolved fields with the environment overrides applied |
| `OpenAIConfig.Settings.ApplyOverrides` | OpenAI/config.py:24-40 | the five overrides, in order, as one state change |
| `OpenAIConfig.Settings.OverrideApiKey` | OpenAI/config.py:25-26 | a truthy `OPENAI_API_KEY` replaces the key; nothing else changes |
| `OpenAIConfig.Settings.OverrideModel` | OpenAI/config.py:27-28 | a truthy `MODEL_NAME` replaces the model |
| `OpenAIConfig.Settings.OverrideMaxTokens` | OpenAI/config.py:29-33 | a truthy `MAX_TOKENS` sets its `int()` value, or 1000 when `int()` raises |
| `OpenAIConfig.Settings.OverrideTemperature` | OpenAI/config.py:34-38 | a truthy `TEMPERATURE` sets its `float()` value, or 0.7 when that raises |
| `OpenAIConfig.Settings.OverrideMongodbUri` | OpenAI/config.py:39-40 | a truthy `MONGODB_URI` replaces the URI |
| `OpenAIConfig.UntruthyLeavesField` | OpenAI/config.py:25-40 | an absent or empty variable leaves its field as resolved |
| `OpenAIConfig.VerbatimCopies` | OpenAI/config.py:25-28 | key, model and URI are copied verbatim when set |
| `OpenAIConfig.MaxTokensOverride` | OpenAI/config.py:29-33 | a set `MAX_TOKENS` gives the parsed integer of any sign, or the literal 1000 (not the resolved value) when unparsable |
| `OpenAIConfig.MaxTokensFromDecimal` | OpenAI/config.py:29-31 | `MAX_TOKENS` holding the decimal form of `n` gives `n` |
| `OpenAIConfig.TemperatureOverrides` | OpenAI/config.py:34-38 | a parsed temperature is taken without a range check; an unparsable one gives 0.7 |
| `OpenAIConfig.RateLimitAndTimeoutFixed` | OpenAI/config.py:19-40 | rate limit and timeout are never overridden |
| `OpenAIConfig.EmptyEnvironmentKeepsDefaults` | OpenAI/config.py:8-40 | with no variables set the declared defaults survive |
| `OpenAIConfig.OverrideIdempotent` | OpenAI/config.py:24-40 | applying the override step twice equals applying it once |
| `Campaigns.TierOf` | server/src/services/campaign.service.ts:25-31 | a count gets a tier other than "Unknown" exactly when it is at least 1000 |
| `Campaigns.TierRanges` | server/src/services/campaign.service.ts:25-31 | each tier holds exactly its half-open range of follower counts |
| `Campaigns.TierMonotone` | server/src/services/campaign.service.ts:25-31 | more followers never give a lower tier |
| `Campaigns.NewestFirst` | server/src/services/campaign.service.ts:67 | `sort({ createdAt: -1 })` on insertion order is the exact reverse |
| `Campaigns.SkipLimit` | server/src/services/campaign.service.ts:60-69 | `skip`/`limit` succeed exactly for a non-negative skip and return at most `limit` items |
| `Campaigns.TotalPages` | server/src/services/campaign.service.ts:81 | for a positive limit, `ceil(total / limit)` is the least page count covering the total |
| `Campaigns.Where` | server/src/services/campaign.service.ts:170-173 | the filter keeps only the brand's campaigns (active ones when asked) |
| `Campaigns.PageSlice` | server/src/services/campaign.service.ts:55-92 | a found page `p` is the newest-first slice starting at `(p - 1) * limit`, 1 to `limit` long, and `p` is within the page count |
| `Campaigns.PastLastPageNotFound` | server/src/services/campaign.service.ts:71-73 | a page past the last one reports "No campaigns found" |
| `Campaigns.BrandCountCoversListed` | server/src/services/campaign.service.ts:170-188 | the brand's count is at least the number of listable campaigns |
| `Campaigns.InactiveCountedNotListed` | server/src/services/campaign.service.ts:170-188 | a brand campaign whose status is not "active" is counted but not listed, so the count is strictly above the listed number |
| `Campaigns.FindCampaign` | server/src/services/campaign.service.ts:512 | `findById`: the first campaign with the id, or none has it |
| `Campaigns.FindOwned` | server/src/services/campaign.service.ts:458-466 | the first campaign with the id and brand (and not deleted when asked), or none matches |
| `Campaigns.FindInvitation` | server/src/services/campaign.service.ts:294-298 | the first invitation the query selects, or none is selected |
| `Campaigns.AddToSet` | server/src/services/campaign.service.ts:362-370 | `$addToSet` contains the new id and every old one, and keeps the list free of duplicates |
| `Campaigns.EditWindowInMs` | server/src/services/campaign.service.ts:885-890 | "more than 5 hours since applying" is exactly more than 18,000,000 ms |
| `Campaigns.CampaignProvider.constructor` | server/src/services/campaign.service.ts:24 | the store starts with the given campaigns and influencers and no invitations |
| `Campaigns.CampaignProvider.ApplyToCampaign` | server/src/services/campaign.service.ts:499-580 | result and new store are the application outcome: id checks, campaign, influencer, existing pair, enrolment, then a pending application |
| `Campaigns.CampaignProvider.InviteToCampaign` | server/src/services/campaign.service.ts:589-657 | result and new store are the invitation outcome, on the brand's own campaign |
| `Campaigns.CampaignProvider.RejectInfluencerForCampaign` | server/src/services/campaign.service.ts:282-320 | the first invitation of the triple becomes rejected, whatever its status |
| `Campaigns.CampaignProvider.Accept` | server/src/services/campaign.service.ts:344-376 | the selected pending invitation is accepted, then the influencer is added to the brand's campaign |
| `Campaigns.CampaignProvider.AcceptInfluencerForCampaign` | server/src/services/campaign.service.ts:332-390 | brand-side acceptance of a pending application sent by the influencer |
| `Campaigns.CampaignProvider.AcceptCampaignInvitation` | server/src/services/campaign.service.ts:1064-1123 | influencer-side acceptance of a pending invitation they received |
| `Campaigns.CampaignProvider.RejectCampaignInvitation` | server/src/services/campaign.service.ts:1132-1176 | only a pending invitation received by the influencer becomes rejected |
| `Campaigns.CampaignProvider.EditApplication` | server/src/services/campaign.service.ts:866-928 | within five hours the application gets only the supplied message and offer |
| `Campaigns.CampaignProvider.DeleteCampaign` | server/src/services/campaign.service.ts:448-488 | the brand's campaign not yet deleted is soft-deleted |
| `Campaigns.AppendKeepsUnique` | server/src/services/campaign.service.ts:536-541 | adding an invitation for a pair without one keeps pairs unique |
| `Campaigns.ApplyBehaviour` | server/src/services/campaign.service.ts:499-565 | errors change nothing; an existing pair is refused; success appends a pending application from the influencer to the campaign's brand, dated now, for an influencer not yet enrolled |
| `Campaigns.InviteBehaviour` | server/src/services/campaign.service.ts:589-645 | errors change nothing; success needs the brand's own campaign and appends a pending invitation from the brand to the influencer |
| `Campaigns.CreationKeepsUniquePairs` | server/src/services/campaign.service.ts:536-541 | applying and inviting keep at most one invitation per campaign and influencer |
| `Campaigns.SetStatusKeepsUnique` | server/src/services/campaign.service.ts:294-298 | status changes keep pairs unique |
| `Campaigns.AcceptBehaviour` | server/src/services/campaign.service.ts:344-376 | acceptance keeps the store valid, changes only the selected invitation's status, and enrols the influencer on success |
| `Campaigns.AcceptSides` | server/src/services/campaign.service.ts:344-352 | the brand's accept changes the store only for a pending application sent by the influencer; the influencer's only for a pending invitation they received |
| `Campaigns.NoPendingAfterChange` | server/src/services/campaign.service.ts:344-352 | once its pair's invitation is no longer pending, no pending query selects anything |
| `Campaigns.RepeatAcceptRefused` | server/src/services/campaign.service.ts:355-360 | accepting the same application twice: the second finds nothing and changes nothing |
| `Campaigns.AddToSetIdempotent` | server/src/services/campaign.service.ts:362-370 | enrolling twice lists the influencer once |
| `Campaigns.RejectBehaviour` | server/src/services/campaign.service.ts:294-298 | the brand's reject needs no pending status; the influencer's needs a pending one addressed to them; neither touches campaigns |
| `Campaigns.RejectAfterAccept` | server/src/services/campaign.service.ts:294-298 | a brand may reject an application it accepted, and the influencer stays enrolled |
| `Campaigns.EditWindowBoundary` | server/src/services/campaign.service.ts:885-894 | an edit exactly five hours after applying is allowed, one millisecond later refused |
| `Campaigns.EditChangesOnlySupplied` | server/src/services/campaign.service.ts:896-912 | an edit changes only the supplied message and offer, within the window |
| `Campaigns.DeleteOnce` | server/src/services/campaign.service.ts:458-472 | the campaign is marked deleted, and a second delete reports it not found and changes nothing |
| `Subscriptions.FindPlan` | server/src/services/subscription.service.ts:84-87 | `findById` on plans: a plan with the id, or none has it |
| `Subscriptions.FindActive` | server/src/services/subscription.service.ts:197-203 | the first record of the user that is active and ends strictly after now, or none is |
| `Subscriptions.ActiveWithPlan` | server/src/services/subscription.service.ts:197-203 | the populated lookup finds exactly the active record, with its plan when the plan still exists |
| `Subscriptions.FindOwned` | server/src/services/subscription.service.ts:167-174 | `findOne({_id, userId})`: the first record with both, or none |
| `Subscriptions.FindPendingPayment` | server/src/services/subscription.service.ts:146-149 | the first pending record carrying the payment reference, or none |
| `Subscriptions.UnknownIntervalNeverActive` | server/src/services/subscription.service.ts:233-245 | an unrecognised interval ends at creation, so the subscription is never active |
| `Subscriptions.WeeklyLastsOneWeek` | server/src/services/subscription.service.ts:239-240 | a weekly subscription is active until one week after creation and not at that instant |
| `Subscriptions.Swept` | server/src/services/subscription.service.ts:247-259 | the sweep treats every record on its own: active and ended before now become inactive |
| `Subscriptions.SubscriptionStore.constructor` | server/src/services/subscription.service.ts:9-66 | the store starts with the plans and no subscriptions |
| `Subscriptions.SubscriptionStore.GetUserActiveSubscription` | server/src/services/subscription.service.ts:197-203 | returns the first of the user's records that is active and ends after now, and only such a record |
| `Subscriptions.SubscriptionStore.CreateSubscription` | server/src/services/subscription.service.ts:83-138 | result and new collection are the creation outcome: plan lookup, active check, free or paid branch |
| `Subscriptions.SubscriptionStore.ActivateSubscription` | server/src/services/subscription.service.ts:141-164 | result and new collection are the activation outcome |
| `Subscriptions.SubscriptionStore.CancelSubscription` | server/src/services/subscription.service.ts:166-195 | result and new collection are the cancel outcome; the provider is called exactly for a priced record with a provider id |
| `Subscriptions.SubscriptionStore.ChangeSubscription` | server/src/services/subscription.service.ts:211-231 | result and new collection are the change outcome as written: a deleted current plan fails with nothing written, otherwise the active subscription is cancelled before the new one is created |
| `Subscriptions.SubscriptionStore.RenewSubscription` | server/src/services/subscription.service.ts:279-300 | result and new collection are the renewal outcome |
| `Subscriptions.SubscriptionStore.CheckAndUpdateExpired` | server/src/services/subscription.service.ts:247-259 | the loop leaves the swept collection and returns the number of expired records |
| `Subscriptions.SubscriptionStore.GetSubscriptionStats` | server/src/services/subscription.service.ts:261-277 | the loop returns the counts by status and payment status and the paid prices' sum over 100 |
| `Subscriptions.CountExpiredAppend` | server/src/services/subscription.service.ts:258 | the expired count of a concatenation is the sum of the counts |
| `Subscriptions.StatsAppend` | server/src/services/subscription.service.ts:262-268 | every statistic of a concatenation is the sum of the parts' |
| `Subscriptions.CreateRefusals` | server/src/services/subscription.service.ts:84-93 | a missing plan or an existing active subscription is refused, and nothing is stored |
| `Subscriptions.CreateFreeVersusPaid` | server/src/services/subscription.service.ts:95-137 | a free plan gives an active paid record needing no payment; a priced one an inactive pending record tied to the provider's reference; the end date follows the plan's interval |
| `Subscriptions.CreatedActiveIffFree` | server/src/services/subscription.service.ts:95-137 | after a creation the user has an active subscription exactly when the plan is free |
| `Subscriptions.ActivateChangesOnlyPending` | server/src/services/subscription.service.ts:141-164 | only a verified payment activates, and only the pending record with the reference, which becomes active, paid and started now |
| `Subscriptions.CancelBehaviour` | server/src/services/subscription.service.ts:166-195 | a missing or already-cancelled record is refused; otherwise it becomes cancelled at now |
| `Subscriptions.CancelTwiceRefused` | server/src/services/subscription.service.ts:176-178 | a second cancel is refused as already cancelled |
| `Subscriptions.ChangeToSamePlanRecreates` | server/src/services/subscription.service.ts:197-229 | as written, a change to the current plan is never refused: the current subscription is cancelled and a new one is created for the same plan |
| `Subscriptions.ChangeWithDeletedPlanFails` | server/src/services/subscription.service.ts:197-218 | exactly when the active subscription's plan no longer exists, the change fails and writes nothing |
| `Subscriptions.IntendedChangeToSamePlanRefused` | server/src/services/subscription.service.ts:215-218 | comparing plan ids refuses a change to the current plan with nothing written, and agrees with the code as written on every other plan |
| `Subscriptions.ChangeCancelsCurrentFirst` | server/src/services/subscription.service.ts:220-227 | a change with an active subscription on an existing plan cancels it first, and that stands even if creation then fails |
| `Subscriptions.RenewFromNow` | server/src/services/subscription.service.ts:279-300 | renewal makes the record active with an end date counted from now, not from the old end date |
| `Subscriptions.SweepClassifies` | server/src/services/subscription.service.ts:247-259 | after the sweep nothing is expired; exactly the expired records changed, and only their status |
| `Subscriptions.BoundaryInstant` | server/src/services/subscription.service.ts:200-201 | a record ending exactly now is neither active nor swept |
| `Subscriptions.SweepKeepsActiveLookup` | server/src/services/subscription.service.ts:197-259 | the sweep does not change the active lookup at the same instant |
| `Subscriptions.SweepIdempotent` | server/src/services/subscription.service.ts:247-259 | a second sweep at the same instant changes nothing and counts nothing |
| `Subscriptions.SweepKeepsRevenue` | server/src/services/subscription.service.ts:247-277 | the sweep keeps revenue, pending and cancelled counts, and lowers the active count by the expired count |
| `Subscriptions.RevenueNonNegative` | server/src/services/subscription.service.ts:267-275 | revenue is never negative when prices are not |
| `Subscriptions.RevenueIgnoresUnpaid` | server/src/services/subscription.service.ts:267-268 | unpaid records add nothing to revenue |
| `AuthSubscription.ProceedIff` | server/src/middleware/authSubcription.ts:14-47 | a signed-in request proceeds exactly when the user has an active subscription whose plan exists, has an allowed lower-cased name and every required feature; it carries that subscription |
| `AuthSubscription.RefusalOrder` | server/src/middleware/authSubcription.ts:15-28 | no user gives 401; a user without an active subscription gives 403 `NO_SUBSCRIPTION` |
| `AuthSubscription.DefaultOptionsNeedOnlyActive` | server/src/middleware/authSubcription.ts:11-12 | with default options any active subscription with an existing plan passes |
| `AuthSubscription.FewerFeaturesStillPass` | server/src/middleware/authSubcription.ts:34-35 | dropping required features never turns a pass into a refusal |
| `AuthSubscription.AgreesWithFeatureAccess` | server/src/middleware/authSubcription.ts:34-35 | requiring one feature agrees with `hasFeatureAccess`; a vanished plan is an error here and a refusal there |
| `AuthSubscription.PremiumRouteImpliesPremiumAccess` | server/src/middleware/authSubcription.ts:31-33 | a route limited to premium and platinum admits only users `hasPremiumAccess` accepts, when plan and record names agree |
| `AuthSubscription.CapitalisedOptionNeverMatches` | server/src/middleware/authSubcription.ts:31-33 | allowed names are compared with the lower-cased plan name, so a capitalised option never matches |
| `SubscriptionUtils.CeilDiv` | server/src/utils/subscription.utils.ts:51 | `Math.ceil(x / d)` is the least whole number of `d`-sized parts covering `x` |
| `SubscriptionUtils.FormatForFrontend` | server/src/utils/subscription.utils.ts:41-53 | the view is active exactly when the record is active now, and its days left is the record's remaining time rounded up to whole days |
| `SubscriptionUtils.DaysLeftAgreesWithActive` | server/src/utils/subscription.utils.ts:50-51 | an active view has at least one day left; an ended record none |
| `SubscriptionUtils.DaysLeftRoundsUp` | server/src/utils/subscription.utils.ts:51 | exactly one day left counts one; a millisecond more counts two |
| `SubscriptionUtils.FeatureAccessIff` | server/src/utils/subscription.utils.ts:5-16 | feature access holds exactly for an active subscription whose existing plan lists the feature |
| `SubscriptionUtils.PlanTypeIgnoresCase` | server/src/utils/subscription.utils.ts:19-26 | the plan type is the stored plan name lower-cased |
| `SubscriptionUtils.AccessLevels` | server/src/utils/subscription.utils.ts:29-38 | platinum access implies premium access; no active subscription gives no plan type and no access |
| `SubscriptionUtils.CapitalisedPremium` | server/src/utils/subscription.utils.ts:22-37 | a stored "Premium" in any case gives premium but not platinum access |
| `SubscriptionUtils.SweepKeepsAccess` | server/src/utils/subscription.utils.ts:57-64 | the expiry sweep at the same instant changes no access decision |
| `Webhook.FirstWhere` | server/src/controllers/webhook.controller.ts:45-46 | the record `findOneAndUpdate` touches: the first the filter matches, or none matches |
| `Webhook.UpdateFirst` | server/src/controllers/webhook.controller.ts:45-80 | an update keeps the number of records |
| `Webhook.HandlePaystackWebhook` | server/src/controllers/webhook.controller.ts:8-42 | status and new collection are the webhook outcome: 400 for a bad signature, 500 when a handler throws or the database rejects its update, with nothing written, else 200 after the event's single update |
| `Webhook.UpdateFirstChangesOne` | server/src/controllers/webhook.controller.ts:45-80 | an update changes at most one record, and only one the filter matches |
| `Webhook.WebhookTouchesAtMostOne` | server/src/controllers/webhook.controller.ts:20-35 | whatever the event, a call changes at most one subscription and adds or removes none |
| `Webhook.BadSignatureRefused` | server/src/controllers/webhook.controller.ts:11-15 | a missing or mismatched signature gives 400 and no change |
| `Webhook.IgnoredEvents` | server/src/controllers/webhook.controller.ts:33-37 | unknown events and `charge.success` without a plan are acknowledged with 200 and no change |
| `Webhook.MissingObjectFails` | server/src/controllers/webhook.controller.ts:38-41 | a payload missing the object a handler dereferences gives 500 and no change |
| `Webhook.RejectedUpdateFails` | server/src/controllers/webhook.controller.ts:38-41 | with a valid signature the answer is 500 exactly when the handler throws or its update is rejected, and then nothing is written |
| `Webhook.DisableCancelsFirstHolder` | server/src/controllers/webhook.controller.ts:55-63 | `subscription.disable` cancels the first record holding the code, stamped now, and nothing else; a rejected update gives 500 and no change |
| `Webhook.FirstWhereIs` | server/src/controllers/webhook.controller.ts:45-46 | the first matching index is what the lookup returns |
| `Webhook.WebhookKeepsIds` | server/src/controllers/webhook.controller.ts:44-82 | webhook processing keeps every record's id |
| `Paystack.ToKobo` | server/src/services/paystack.service.ts:268-270 | `Math.round(amount * 100)` is within half a kobo of the exact product |
| `Paystack.FromKobo` | server/src/services/paystack.service.ts:273-275 | the naira amount times 100 is the kobo amount |
| `Paystack.ScaledAmount` | server/src/services/paystack.service.ts:61-72 | the unrounded plan and transaction amount converts back to the naira amount |
| `Paystack.ToKoboWhole` | server/src/services/paystack.service.ts:268-270 | a whole naira amount is exactly 100 kobo per naira |
| `Paystack.KoboRoundTripWhole` | server/src/services/paystack.service.ts:268-275 | whole naira to kobo and back gives the amount back |
| `Paystack.KoboRoundTripCents` | server/src/services/paystack.service.ts:268-275 | every whole number of kobo survives the trip to naira and back |
| `Paystack.ToKoboError` | server/src/services/paystack.service.ts:268-275 | rounding to kobo moves an amount by at most half a kobo |
| `Paystack.ScalingMatchesRoundingOnWholeKobo` | server/src/services/paystack.service.ts:97-109 | the unrounded scaling agrees with `toKobo` exactly when the amount is a whole number of kobo |
| `Paystack.GenerateReference` | server/src/services/paystack.service.ts:261-265 | the reference has no lower-case letters and its length is prefix, timestamp, random part and two separators |
| `Paystack.ReferenceLayout` | server/src/services/paystack.service.ts:261-265 | the reference is the upper-cased prefix, "_", the timestamp digits, "_", then the random part |
| `Paystack.DefaultReferencePrefix` | server/src/services/paystack.service.ts:261 | without a prefix the reference starts with "TX_" |
| `Paystack.SignatureAcceptsOnlyDigest` | server/src/services/paystack.service.ts:252-258 | the signature check accepts exactly the computed digest |
| `Payments.SplitAmount` | server/src/services/payment.service.ts:13-25 | the 8% commission and the influencer's share add up to the total, each within it for a non-negative total |
| `Payments.SchemaPreferencesRouteToWallet` | server/src/services/payment.service.ts:106-110 | no schema-valid preference selects the bank transfer branch |
| `Payments.FindTransaction` | server/src/services/payment.service.ts:88-91 | `findOne({paystackReference})`: a transaction with the reference, or none has it |
| `Payments.FindWallet` | server/src/services/payment.service.ts:192-195 | the first wallet of the user and type, or none |
| `Payments.FindUsableAccount` | server/src/services/payment.service.ts:156-160 | the first active, verified account of the influencer, or none |
| `Payments.Credited` | server/src/services/payment.service.ts:190-235 | a credit keeps the number of transactions and logs exactly one entry |
| `Payments.Deactivated` | server/src/services/payment.service.ts:266-270 | `updateMany` deactivates exactly the influencer's accounts and leaves the others |
| `Payments.PaymentService.constructor` | server/src/services/payment.service.ts:12-14 | an empty, valid ledger with zero campaign totals |
| `Payments.PaymentService.CreateAndSave` | server/src/services/payment.service.ts:31-70 | result and new transactions are the transaction creation: a preference outside the schema is a validation error, a failed initialisation rolls back, and otherwise the pending transaction is stored |
| `Payments.PaymentService.InitiatePayment` | server/src/services/payment.service.ts:17-77 | result and new ledger are `initiatePayment` as written: a missing influencer is refused, otherwise the transaction is created with the preference the projected query yields |
| `Payments.InitiateAlwaysRejected` | server/src/services/payment.service.ts:26-47 | as written every payment for a known influencer is a validation error and stores nothing, whatever preference the influencer stored, because the recorded preference is always "bank" |
| `Payments.IntendedInitiateStores` | server/src/services/payment.service.ts:17-77 | with the preference loaded and a schema-valid fallback: an unset or schema-valid preference gives a stored pending transaction with that preference, the split, the reference and the kobo amount; other values and failed initialisation change nothing; validity is kept |
| `Payments.PaymentService.FindTransactionIndex` | server/src/services/payment.service.ts:88-91 | the search loop returns the first transaction with the reference |
| `Payments.PaymentService.CreditWallet` | server/src/services/payment.service.ts:190-235 | the new ledger is the credited ledger |
| `Payments.PaymentService.TransferToInfluencerBank` | server/src/services/payment.service.ts:155-188 | no usable account, or a failed transfer, credits the wallet; a good transfer only marks the payout completed |
| `Payments.PaymentService.HandlePaymentWebhook` | server/src/services/payment.service.ts:80-133 | result and new ledger are the webhook outcome: lookup, failure report, commission, payout, completion and campaign totals |
| `Payments.PaymentService.WithdrawFromWallet` | server/src/services/payment.service.ts:355-421 | result and new ledger are the withdrawal outcome, the result being the provider's transfer reference |
| `Payments.PaymentService.AddInfluencerBankAccount` | server/src/services/payment.service.ts:238-299 | the loop deactivates the influencer's accounts, then the new active, verified account is appended |
| `Payments.CreditAddsAmount` | server/src/services/payment.service.ts:190-228 | the influencer's wallet (new ones start at zero) gains the amount, and the single new entry records the balances before and after |
| `Payments.WalletAppendFound` | server/src/services/payment.service.ts:197-205 | a wallet created for the user is the one found next |
| `Payments.UpdatedWalletFound` | server/src/services/payment.service.ts:207-210 | updating the found wallet keeps it the one found |
| `Payments.CreditKeepsValid` | server/src/services/payment.service.ts:190-228 | crediting keeps wallets balanced and entries consistent |
| `Payments.StoredTransactionsPayToWallet` | server/src/services/payment.service.ts:106-110 | in a valid ledger every payout is a wallet credit |
| `Payments.BankRouteFallsBackToWallet` | server/src/services/payment.service.ts:155-188 | with a bank preference a missing account or a failed transfer credits the wallet; a good transfer moves no wallet money |
| `Payments.FailedPaymentMovesNothing` | server/src/services/payment.service.ts:93-98 | a reported failure marks the transaction failed and moves no money |
| `Payments.WebhookErrorsChangeNothing` | server/src/services/payment.service.ts:88-91 | an unknown reference or a failed commission transfer rolls back every write |
| `Payments.CompletedPaymentTotals` | server/src/services/payment.service.ts:100-124 | a completed payment has both transfers completed and adds its amount and commission to the campaign |
| `Payments.WebhookKeepsValid` | server/src/services/payment.service.ts:80-133 | the payment webhook keeps the ledger valid |
| `Payments.WithdrawRefusals` | server/src/services/payment.service.ts:364-386 | a missing wallet, a short balance, no verified account or a failed transfer is refused and changes nothing |
| `Payments.WithdrawMovesAmount` | server/src/services/payment.service.ts:380-414 | a withdrawal returns the transfer reference, takes the amount off the balance, adds it to the withdrawals and logs one debit from the old to the new balance; the whole balance may be withdrawn |
| `Payments.WithdrawKeepsValid` | server/src/services/payment.service.ts:355-421 | withdrawal keeps the ledger valid |
| `Payments.CreditThenWithdraw` | server/src/services/payment.service.ts:190-414 | a credit then a withdrawal of the same amount succeeds and restores the balance |
| `Payments.NewAccountIsOnlyActive` | server/src/services/payment.service.ts:266-283 | after adding an account it is the influencer's only active one and the one payouts use |
| `Payments.NoUsableInDeactivated` | server/src/services/payment.service.ts:266-270 | after deactivation the influencer has no usable account |
| `Payments.UsableAppend` | server/src/services/payment.service.ts:273-283 | the appended usable account is the one found |
| `Payments.AddAccountKeepsOthers` | server/src/services/payment.service.ts:238-299 | other influencers' accounts are untouched, and a failure changes nothing |
| `Payments.GetWalletDefault` | server/src/services/payment.service.ts:423-444 | at most 20 entries; no wallet gives an all-zero view and no entries; a balanced wallet shows balance = earnings - withdrawals |
| `Payments.FirstTransactionIs` | server/src/services/payment.service.ts:88-91 | the first transaction with the reference is the one found |
| `PlatformUtil.DetectIsFirstMatch` | server/src/utils/platform.util.ts:3-11 | detection returns the first platform, in the order youtube, tiktok, instagram, facebook, twitter, one of whose markers occurs in the lower-cased URL, and null when none occurs |
| `PlatformUtil.DetectIgnoresCase` | server/src/utils/platform.util.ts:4 | an upper-cased URL is classified like the original, because the URL is lower-cased first |
| `PlatformUtil.TwitterByXOnly` | server/src/utils/platform.util.ts:5-9 | a URL holding "x.com" and none of the letters of the earlier markers is classified as twitter |
| `PlatformUtil.NetflixIsTwitter` | server/src/utils/platform.util.ts:9 | "x.com" is matched anywhere in the URL, so "netflix.com" is classified as twitter |
| `PlatformUtil.ExtractYouTubeVideoId` | server/src/utils/platform.util.ts:13-17 | a found id is exactly 11 characters, none of them a quote, "&", "?", "/" or white space |
| `PlatformUtil.YouTubeMatchAt` | server/src/utils/platform.util.ts:15 | a match at a position starts its capture where 11 id characters follow |
| `PlatformUtil.LastSlashBeforeId` | server/src/utils/platform.util.ts:15 | the greedy `.+\/` ends at a slash inside the searched range that is followed by an id |
| `PlatformUtil.LastQueryV` | server/src/utils/platform.util.ts:15 | the greedy `.*[?&]v=` ends at a "?" or "&" followed by "v=" and an id |
| `PlatformUtil.ShortLinkFound` | server/src/utils/platform.util.ts:15-16 | "youtu.be/" followed by 11 id characters anywhere in the URL always yields an id |
| `PlatformUtil.YouTubeNeedsHost` | server/src/utils/platform.util.ts:15-16 | a URL without "youtu" yields no id |
| `PlatformUtil.ExtractFacebookVideoId` | server/src/utils/platform.util.ts:19-24 | a found id is a non-empty run of digits |
| `PlatformUtil.FacebookMatchAt` | server/src/utils/platform.util.ts:22 | a match at a position captures at least one digit, all within the URL |
| `PlatformUtil.FacebookVideosFound` | server/src/utils/platform.util.ts:22-23 | "/videos/" followed by a digit always yields an id |
| `PlatformUtil.FacebookWatchFound` | server/src/utils/platform.util.ts:22-23 | "/watch?v=" and "/watch/?v=" followed by a digit both yield an id |
| `PlatformUtil.FacebookExample` | server/src/utils/platform.util.ts:22-23 | "/videos/123" yields "123": the whole digit run is taken |
| `PlatformUtil.ExtractTweetId` | server/src/utils/platform.util.ts:26-29 | a found id is a non-empty run of digits |
| `PlatformUtil.TweetMatchAt` | server/src/utils/platform.util.ts:27 | a match captures digits that directly follow "/status/" |
| `PlatformUtil.TweetIdFollowsStatus` | server/src/utils/platform.util.ts:27-28 | the returned id is the matched digits, and "/status/" stands right before them |
| `PlatformUtil.TweetFound` | server/src/utils/platform.util.ts:27-28 | "x.com/", a handle of word characters, "/status/" and a digit always yield an id |
| `PlatformUtil.GetTextContaining` | server/src/utils/platform.util.ts:31-35 | the result is never empty and starts with a digit ("0" when nothing matches) |
| `PlatformUtil.LabelledNumberAt` | server/src/utils/platform.util.ts:32 | a match after the label starts at a digit and lies within the text |
| `PlatformUtil.GetTextContainingExample` | server/src/utils/platform.util.ts:32-34 | the label is matched without regard to case: "Followers: 12" with label "followers" gives "12" |
| `PlatformUtil.GetTextContainingAbsent` | server/src/utils/platform.util.ts:34 | text without a digit gives "0" |
| `PlatformUtil.NumberMatchAt` | server/src/utils/platform.util.ts:38 | a match at a position starts at a digit and ends its number part after it |
| `PlatformUtil.EndWithSuffix` | server/src/utils/platform.util.ts:38 | the suffix and word boundary keep the number part found |
| `PlatformUtil.ParseDecimal` | server/src/utils/platform.util.ts:42 | `parseFloat` of the matched number is never negative |
| `PlatformUtil.ExtractNoDigits` | server/src/utils/platform.util.ts:37-39 | text without digits gives 0 |
| `PlatformUtil.ExtractPlainCount` | server/src/utils/platform.util.ts:37-51 | a plain decimal count reads back as itself |
| `PlatformUtil.ExtractThousands` | server/src/utils/platform.util.ts:44-46 | a count followed by "K" or "k" is multiplied by a thousand |
| `PlatformUtil.ExtractTenthsOfThousands` | server/src/utils/platform.util.ts:38-46 | a count with one decimal and "K" is scaled exactly, so "12.5K" is 12500 |
| `PlatformUtil.IsTokenExpired` | server/src/utils/platform.util.ts:54-56 | a token is expired exactly when the current instant is not before its expiry |
| `PlatformUtil.ExpiredAtBoundary` | server/src/utils/platform.util.ts:55 | the expiry instant itself already counts as expired |
| `CampaignAnalytics.GenerateCampaignAnalytics` | server/src/services/campaignAnalytics.service.ts:4-43 | the loop's result is the report of the records visited in order: the ten totals, the three averages and the record count |
| `CampaignAnalytics.OrOne` | server/src/services/campaignAnalytics.service.ts:39-41 | the `|| 1` divisor is never zero |
| `CampaignAnalytics.SumOrderIndependent` | server/src/services/campaignAnalytics.service.ts:22-34 | the totals do not depend on the order in which the records come back |
| `CampaignAnalytics.ReportOrderIndependent` | server/src/services/campaignAnalytics.service.ts:7-43 | the whole report is the same for any ordering of the same records |
| `CampaignAnalytics.EmptyReport` | server/src/services/campaignAnalytics.service.ts:36-42 | with no records every total and average is 0 and the count is 0 |
| `CampaignAnalytics.EngagementRateFallback` | server/src/services/campaignAnalytics.service.ts:39 | zero impressions give the engagement total as the rate; otherwise the rate times the impressions is the engagement |
| `CampaignAnalytics.AveragesOverCount` | server/src/services/campaignAnalytics.service.ts:40-41 | with records, the quality and follower-growth averages times the count give the total and the growth |
| `CampaignAnalytics.EmptyRecordAddsNothing` | server/src/services/campaignAnalytics.service.ts:23-33 | a record with no metrics object and no fields adds nothing to any total |
| `CampaignAnalytics.ViewsNonNegative` | server/src/services/campaignAnalytics.service.ts:24 | non-negative view counts give a non-negative total |
| `ClickLogs.FindByCode` | server/src/controllers/clickLog.controller.ts:13 | the found influencer has the referral code, and none has it when nothing is found |
| `ClickLogs.Latest` | server/src/controllers/clickLog.controller.ts:16 | the found record is the influencer's and has the latest creation time among theirs; nothing is found exactly when they have none |
| `ClickLogs.ClickLogController.constructor` | server/src/controllers/clickLog.controller.ts:9-57 | the store starts with the given influencers and records and no logs |
| `ClickLogs.ClickLogController.FindLog` | server/src/controllers/clickLog.controller.ts:25-30 | a log is found exactly when one with the same influencer, campaign, ip and user agent is stored |
| `ClickLogs.ClickLogController.HandleReferralClick` | server/src/controllers/clickLog.controller.ts:9-57 | the response and the new store are the click outcome of the old store: 404 for an unknown code or no record, the redirect for a known key, a rejected create for a new key with an empty ip or user agent, else one new log and one more conversion |
| `ClickLogs.NotFoundRecordsNothing` | server/src/controllers/clickLog.controller.ts:13-49 | 404 answers come exactly for an unknown code or an influencer without a record; the create is rejected exactly for a new key with an empty ip or user agent; neither changes anything, and every other answer is the 302 redirect to the landing page |
| `ClickLogs.MissingUserAgentRejected` | server/src/controllers/clickLog.controller.ts:20-49 | with the stored logs valid for the schema, a click from a known link without a user agent is never redirected and records nothing, because the empty string fails `userAgent`'s `required` |
| `ClickLogs.ClickKeepsBalance` | server/src/controllers/clickLog.controller.ts:25-54 | a click appends at most one log, keeps the log keys unique and every stored log valid for the schema, and keeps conversions minus logs constant |
| `ClickLogs.TotalAfterIncrement` | server/src/controllers/clickLog.controller.ts:51-54 | the `$inc` raises the sum of all conversion counters by exactly one |
| `ClickLogs.FirstClickCredits` | server/src/controllers/clickLog.controller.ts:35-54 | a first click for a key with a non-empty ip and user agent redirects, logs it with the query fields and credits the latest record by one, no other record changing; with either empty the create is rejected and nothing changes |
| `ClickLogs.RepeatClickIgnored` | server/src/controllers/clickLog.controller.ts:25-33 | repeating a click with the same key changes nothing and gets the same redirect |
| `ClickLogs.LatestAfterIncrement` | server/src/controllers/clickLog.controller.ts:16 | crediting a record does not change which record is the latest |
| `ClickLogs.ClicksCountDistinctKeys` | server/src/controllers/clickLog.controller.ts:25-54 | over any run of clicks conversions grow by exactly the number of new distinct keys logged |
| `TokenMaintenance.Classify` | server/src/cron/instagramCronJob.ts:19-24 | an account without an expiry is skipped; one expiring at or before now is expired; one within the next seven days is expiring soon; any other is fine |
| `TokenMaintenance.Connected` | server/src/cron/instagramCronJob.ts:13 | the job's snapshot holds only connected stored accounts, and no more of them than are stored |
| `TokenMaintenance.FirstOf` | server/src/cron/instagramCronJob.ts:25-26 | `findOneAndUpdate` picks the first stored account of the influencer, and none when they have no account |
| `TokenMaintenance.RunStep` | server/src/cron/instagramCronJob.ts:15-59 | the loop over one more account is one more visit |
| `TokenMaintenance.TokenJob.constructor` | server/src/cron/instagramCronJob.ts:6-65 | the job starts with the stored accounts and no notifications or refresh requests |
| `TokenMaintenance.TokenJob.VisitAccount` | server/src/cron/instagramCronJob.ts:16-58 | the new state is one visit's outcome: skip, disconnect and notify, or request a refresh, stopping where a database call throws |
| `TokenMaintenance.TokenJob.RefreshAllTokens` | server/src/cron/youtubeCronJob.ts:6-66 | the new state is the run of visits over the snapshot of connected accounts, in order |
| `TokenMaintenance.SoonIds` | server/src/cron/instagramCronJob.ts:52-55 | there is at most one refresh request per visited account |
| `TokenMaintenance.RunAppendsPerAccount` | server/src/cron/instagramCronJob.ts:18-58 | each account adds its own notifications and refresh requests, whatever happened to the accounts before it: a failure does not stop the loop |
| `TokenMaintenance.ExpiredAccountNotified` | server/src/cron/instagramCronJob.ts:24-49 | every expired account whose visit did not throw is notified, wherever other visits failed |
| `TokenMaintenance.NoticesOnlyForExpired` | server/src/cron/instagramCronJob.ts:36-46 | there is at most one notification per account, and each is for an expired account |
| `TokenMaintenance.SoonIdsExact` | server/src/cron/instagramCronJob.ts:21-55 | an influencer gets a refresh request exactly when one of their snapshot accounts expires within the week and is not expired |
| `TokenMaintenance.DisconnectKeepsIds` | server/src/cron/instagramCronJob.ts:25-34 | a disconnection keeps the number of accounts and every influencer id |
| `TokenMaintenance.RunAccounts` | server/src/cron/instagramCronJob.ts:15-59 | only accounts of influencers with an expired visit that got past the update change, and each changed one is disconnected and asks for reauthorization |
| `TokenMaintenance.VisitKeepsDisconnected` | server/src/cron/instagramCronJob.ts:25-34 | no visit reconnects a disconnected account |
| `TokenMaintenance.VisitDisconnects` | server/src/cron/instagramCronJob.ts:24-34 | an expired visit that gets past the update disconnects the influencer's first account |
| `TokenMaintenance.DisconnectedStaysDisconnected` | server/src/cron/instagramCronJob.ts:15-59 | after the run, the first account of every influencer with such a visit is disconnected and asks for reauthorization |
| `TokenMaintenance.NoFailureNotifiesEachExpired` | server/src/cron/youtubeCronJob.ts:25-51 | without failures the run sends exactly one notification per expired snapshot account |
| `TokenMaintenance.NothingConnectedNothingDone` | server/src/cron/youtubeCronJob.ts:14-16 | when no account is connected the job changes nothing |
| `CampaignControllers.QueryNumber` | server/src/controllers/campaign.controller.ts:18-19 | the page or limit is the default, or the non-zero number `parseInt` reads from the query; a missing query gives the default |
| `CampaignControllers.QueryNumberFallbacks` | server/src/controllers/campaign.controller.ts:35-36 | a missing query and "0" both give the default |
| `CampaignControllers.NonNumericFallsBack` | server/src/controllers/campaign.controller.ts:18-19 | a query starting with a letter is `NaN` to `parseInt` and gives the default |
| `CampaignControllers.QueryNumberPassesThrough` | server/src/controllers/campaign.controller.ts:18-19 | a non-zero number with any non-numeric tail passes through, a negative one included |
| `CampaignControllers.Guard` | server/src/controllers/campaign.controller.ts:50-579 | a request passes the guard exactly when the handler does not read the user, or the user is signed in, owns the brand or influencer path id the handler checks, and gives the body `influencerId` the handler needs |
| `CampaignControllers.CampaignController.constructor` | server/src/controllers/campaign.controller.ts:16-579 | the controller starts with the given campaign store and no chat rooms |
| `CampaignControllers.CampaignController.Dispatch` | server/src/controllers/campaign.controller.ts:16-579 | the answer, the new store and the new chat rooms are the handle outcome of the old store and rooms: the guard, then the service call |
| `CampaignControllers.AnonymousRefused` | server/src/controllers/campaign.controller.ts:53-57 | every handler that reads the user refuses an anonymous request and changes nothing |
| `CampaignControllers.OwnershipRequired` | server/src/controllers/campaign.controller.ts:157-174 | brand-side handlers refuse a user who is not the path's brand, influencer-side ones a user who is not the path's influencer, changing nothing |
| `CampaignControllers.CampaignDetailsOpen` | server/src/controllers/campaign.controller.ts:50-65 | any signed-in user may read any campaign's details, since the ownership test is commented out |
| `CampaignControllers.BodyInfluencerRequired` | server/src/controllers/campaign.controller.ts:265-283 | reject, accept and invite refuse a missing or empty body `influencerId`, even from the owning brand |
| `CampaignControllers.ChatRoomOnlyAfterAccept` | server/src/controllers/campaign.controller.ts:503-538 | a chat room is opened exactly when an acceptance succeeds, one room, with the path's brand |
| `CampaignControllers.ListingDefaults` | server/src/controllers/campaign.controller.ts:16-44 | without `page` and `limit` the listings ask the store for page 1 of 10 |
| `CampaignControllers.ReadOnlyHandlers` | server/src/controllers/campaign.controller.ts:16-579 | handlers that name no write operation leave the store and the chat rooms unchanged |
| `Common.JsParseIntOfDecimal` | server/src/controllers/campaign.controller.ts:18 | `parseInt` reads back the decimal form of every natural number, ignoring a tail that cannot extend it |
| `Common.JsParseIntOfNegative` | server/src/controllers/campaign.controller.ts:18 | `parseInt` reads a minus sign followed by a decimal numeral as the negated number |
| `Common.JsParseIntOfLetter` | server/src/controllers/campaign.controller.ts:19 | `parseInt` of a string starting with a letter is `NaN` |
| `Common.JsRound` | server/src/utils/platform.util.ts:46-50 | `Math.round` gives the integer within half of the value, halves going up, and never a negative one for a non-negative value |
| `Common.RemoveChar` | server/src/utils/platform.util.ts:38 | removing commas leaves exactly the other characters of the text and no comma |
| `CovoScoreHook.ScoreHook.constructor` | client/hooks/useCovoScore.ts:21-23 | the hook starts with no score, not loading, no error and no request made |
| `CovoScoreHook.ScoreHook.FetchCovoScore` | client/hooks/useCovoScore.ts:41-131 | the new state and the requests made are the fetch outcome: the three guards, then one request on the chosen route and what its answer stores |
| `CovoScoreHook.ScoreHook.ClearWithoutToken` | client/hooks/useCovoScore.ts:148-154 | the new state is the token effect's outcome on the old one |
| `CovoScoreHook.FlagsExclusive` | client/hooks/useCovoScore.ts:26-36 | with an id the influencer score of that id is fetched; without one the role chooses the influencer or the brand score of the session user; never both |
| `CovoScoreHook.GuardOrder` | client/hooks/useCovoScore.ts:43-64 | nothing to fetch clears the state; then a missing token, then a missing id, each keep the score and set their error; a request is made exactly past all three, on the route the flags choose; loading always ends |
| `CovoScoreHook.DefaultsOnInvalidScore` | client/hooks/useCovoScore.ts:82-116 | a success without a numeric `overall` stores 100 for an influencer and 0 for a brand, with no ratings |
| `CovoScoreHook.ValidScoreKept` | client/hooks/useCovoScore.ts:67-122 | a numeric `overall` is stored as received with no error, and a brand score's missing ratings become empty |
| `CovoScoreHook.EffectsAlwaysRequest` | client/hooks/useCovoScore.ts:141-166 | whenever the mount or polling effect fires, the fetch gets past its guards and makes a request |
| `CovoScoreHook.ConvenienceIntervals` | client/hooks/useCovoScore.ts:177-209 | the update hooks poll every 30000 and 300000 ms exactly for a signed-in influencer or brand; the plain hooks poll only with an explicit interval and fetch on mount by default |
| `CovoScoreHook.TokenEffect` | client/hooks/useCovoScore.ts:148-154 | losing the token clears the score, the error and loading; with a token the state is kept |
| `CovoScoreDisplay.Bands` | client/components/shared/covo-score-display/CovoScoreDisplay.component.tsx:131-147 | the colour bands: from 90, 80 and 70 for an influencer score, from 4, 3 and 2 for a brand score, red below, gray with no score |
| `CovoScoreDisplay.ColorMonotone` | client/components/shared/covo-score-display/CovoScoreDisplay.component.tsx:131-147 | a higher score never gets a worse band |
| `CovoScoreDisplay.ZeroIsGray` | client/components/shared/covo-score-display/CovoScoreDisplay.component.tsx:127-151 | a score of 0 is printed as a number with its decimals but coloured gray, and a missing score prints "N/A" |
| `CovoScoreDisplay.LabelMatchesScale` | client/components/shared/covo-score-display/CovoScoreDisplay.component.tsx:33-40 | the label and the scale name the same kind of score, and a hidden label is empty |
| `CovoScoreDisplay.KindMatchesFetchedScore` | client/components/shared/covo-score-display/CovoScoreDisplay.component.tsx:25-31 | the badge shows the 0-100 kind exactly when its hook fetches the influencer score, and the brand kind when it fetches the brand score |
| `CovoScoreDisplay.RenderPrecedence` | client/components/shared/covo-score-display/CovoScoreDisplay.component.tsx:102-128 | loading is shown before an error and an error before the score; the score is shown exactly when neither applies |
| `CovoScoreDisplayClient.ClientBandsIdentical` | client/components/shared/covo-score-display/CovoScoreDisplayClient.tsx:132-148 | the client badge's own colour chain gives the plain badge's bands |
| `CovoScoreDisplayClient.ClientMatchesBadge` | client/components/shared/covo-score-display/CovoScoreDisplayClient.tsx:99-152 | once the session is loaded the client renders loading, error and score when the plain badge does, with the same score box |
| `CovoScoreDisplayClient.ClientPrecedence` | client/components/shared/covo-score-display/CovoScoreDisplayClient.tsx:27-29 | a loading session shows the shimmer before anything else; after it loading beats error, which beats the score |
| `CovoScoreDisplayClient.ErrorTitles` | client/components/shared/covo-score-display/CovoScoreDisplayClient.tsx:111-125 | an error is titled "Offline" exactly for a network error and "Error" otherwise |
| `CovoScoreDisplayClient.CapitalServerIsNot` | client/components/shared/covo-score-display/CovoScoreDisplayClient.tsx:112-114 | the network test is case-sensitive: "Server down" is not a network error |
| `CovoScoreDisplayClient.ClientZeroIsGray` | client/components/shared/covo-score-display/CovoScoreDisplayClient.tsx:128-152 | a score of 0 is coloured gray on the client too, and still printed as a number |
| `LocationInput.AvailableStates` | client/components/ui/location-input-custom.tsx:96-98 | the filter offers no more states than are bundled |
| `LocationInput.AvailableStatesExact` | client/components/ui/location-input-custom.tsx:96-98 | a state is offered exactly when a country is selected and the state belongs to it; with no country nothing is offered |
| `LocationInput.FindFirst` | client/components/ui/location-input-custom.tsx:102 | `find` returns the first entry with the name, and nothing exactly when no entry has it |
| `LocationInput.PropsSelectFirst` | client/components/ui/location-input-custom.tsx:100-116 | an empty prop clears the selection; otherwise each prop selects the first country or state of its name |
| `LocationInput.ValueStateCanLeaveCountry` | client/components/ui/location-input-custom.tsx:109-116 | `valueState` searches every state, so it can select a state of another country that the selected country does not offer |
| `LocationInput.StateSelectorNeedsCountry` | client/components/ui/location-input-custom.tsx:201-209 | the state selector is rendered exactly when the selected country has a state, so its button is never disabled while shown |
| `LocationInput.LocationSelector.constructor` | client/components/ui/location-input-custom.tsx:71-89 | nothing is selected, both dropdowns are closed, no callback has been called, and which optional callbacks were given is recorded |
| `LocationInput.LocationSelector.SyncCountry` | client/components/ui/location-input-custom.tsx:100-107 | the selected country becomes the one the `valueCountry` prop names |
| `LocationInput.LocationSelector.SyncState` | client/components/ui/location-input-custom.tsx:109-116 | the selected state becomes the one the `valueState` prop names |
| `LocationInput.LocationSelector.HandleCountrySelect` | client/components/ui/location-input-custom.tsx:118-123 | choosing a country selects it, clears the state, and reports the country and then a cleared state, each only to a callback that was given |
| `LocationInput.LocationSelector.HandleStateSelect` | client/components/ui/location-input-custom.tsx:125-128 | choosing a state selects it, keeps the country and reports the state when `onStateChange` was given |
| `LocationInput.LocationSelector.SelectCountryItem` | client/components/ui/location-input-custom.tsx:171-174 | a country item selects its country, resets the state, reports to the given callbacks and closes the country dropdown |
| `LocationInput.LocationSelector.SelectStateItem` | client/components/ui/location-input-custom.tsx:237-240 | a state item selects its state, reports it when `onStateChange` was given and closes the state dropdown |
| `ViewInvitations.StatusColorIgnoresCase` | client/components/authorized/influencer/profile/invitations/ViewInvitationsDialog.component.tsx:45-46 | a status and its lower-cased form get the same badge colour |
| `ViewInvitations.StatusColors` | client/components/authorized/influencer/profile/invitations/ViewInvitationsDialog.component.tsx:45-56 | "pending" is yellow, "accepted" green, "rejected" red, and any other status, "expired" for one, gray |
| `ViewInvitations.StatusColorsInAnyCase` | client/components/authorized/influencer/profile/invitations/ViewInvitationsDialog.component.tsx:46 | capitals do not change the colour: "PENDING" is yellow and "Rejected" red |
| `ViewInvitations.StatusLabelShape` | client/components/authorized/influencer/profile/invitations/ViewInvitationsDialog.component.tsx:172-173 | the badge label keeps the status's length, upper-cases its first character and keeps the rest |
| `ViewInvitations.ActionsOnlyForPending` | client/components/authorized/influencer/profile/invitations/ViewInvitationsDialog.component.tsx:171-192 | only an exactly "pending" invitation gets the accept and reject buttons, and it is yellow; "Pending" is yellow too but gets no buttons |
| `ViewInvitations.OfferDisplay` | client/components/authorized/influencer/profile/invitations/ViewInvitationsDialog.component.tsx:181-188 | a falsy offer is hidden, an object is shown as its JSON text and any other value as it is; 0 and "" are hidden |
| `ViewInvitations.RespondEffect` | client/components/authorized/influencer/profile/invitations/ViewInvitationsDialog.component.tsx:66-132 | the list is refreshed exactly after a "success" answer; every other outcome shows a destructive "Error" toast, with the route's message or, when the route throws, the action's fixed failure text |
| `Login.SchemasAccept` | client/lib/api/login/login.validation.ts:4-5 | the email schema passes exactly an email of at least one character, reporting the format message first; the password schema passes exactly at six characters or more |
| `Login.LoginBox.constructor` | client/components/unauthorized/login/login-box/LoginBox.tsx:10-16 | the box starts empty: no inputs, errors, success message, refresh or `signIn` call |
| `Login.LoginBox.ValidateField` | client/components/unauthorized/login/login-box/LoginBox.tsx:19-41 | the field errors become those of `validateField`'s outcome for the field and value |
| `Login.LoginBox.HandleInputChange` | client/components/unauthorized/login/login-box/LoginBox.tsx:43-58 | the new page is the edit's outcome, and server and field errors stay apart |
| `Login.LoginBox.HandleLogin` | client/components/unauthorized/login/login-box/LoginBox.tsx:60-103 | the new page is the login's outcome, `signIn` is recorded exactly when it is called, with the typed credentials, and server and field errors stay apart |
| `Login.ValidateFieldChangesOnlyItsField` | client/components/unauthorized/login/login-box/LoginBox.tsx:19-41 | validating a field changes only its own entry: removed when the value passes, the schema's first message when it fails |
| `Login.InputChangeEffect` | client/components/unauthorized/login/login-box/LoginBox.tsx:43-58 | an edit stores its value, clears the server error, drops its field's error when emptied and re-validates it otherwise, touching no other field |
| `Login.BlankInputGivesGeneralError` | client/components/unauthorized/login/login-box/LoginBox.tsx:62-69 | an email or password of only white space gives the general error, no field error and no `signIn` |
| `Login.SpacesPasswordNeverSent` | client/components/unauthorized/login/login-box/LoginBox.tsx:66-89 | six spaces pass the password schema, yet the blank check stops the login first |
| `Login.LoginChecksInOrder` | client/components/unauthorized/login/login-box/LoginBox.tsx:60-103 | a login leaves at most one field error, the email checked before the password; `signIn` is called exactly when both inputs are non-blank and both schemas pass; success is shown only for an error-free ok answer |
| `Login.ServerBannerHiddenByFieldError` | client/components/unauthorized/login/login-box/LoginBox.tsx:118-145 | the server error banner appears exactly when there is an error and no field error, and each field error has its banner |
| `Login.CoherentPreserved` | client/components/unauthorized/login/login-box/LoginBox.tsx:43-103 | edits and logins never set a server error beside a field error, so a set server error is always on screen |
| `ForgotPassword.ForgotPasswordBox.constructor` | client/components/unauthorized/forgot-password/forgot-password-box/ForgotPasswordBox.tsx:9-13 | the box starts with an empty email, no errors, no success message, not submitting and no request sent |
| `ForgotPassword.ForgotPasswordBox.ValidateEmail` | client/components/unauthorized/forgot-password/forgot-password-box/ForgotPasswordBox.tsx:20-38 | the validation errors become `validateEmail`'s outcome: the email entry removed for a valid email, set to the schema's message otherwise |
| `ForgotPassword.ForgotPasswordBox.ValidateForm` | client/components/unauthorized/forgot-password/forgot-password-box/ForgotPasswordBox.tsx:40-56 | the form is valid exactly when the email is, and the errors are then empty, else just the email message |
| `ForgotPassword.ForgotPasswordBox.HandleInputChange` | client/components/unauthorized/forgot-password/forgot-password-box/ForgotPasswordBox.tsx:58-73 | the new page is the edit's outcome |
| `ForgotPassword.ForgotPasswordBox.HandleForgotPassword` | client/components/unauthorized/forgot-password/forgot-password-box/ForgotPasswordBox.tsx:75-107 | the new page is the submit's outcome, and a request with the typed email is recorded exactly when it is sent |
| `ForgotPassword.InputChangeEffect` | client/components/unauthorized/forgot-password/forgot-password-box/ForgotPasswordBox.tsx:58-73 | an edit stores its value and clears the server error; an empty input drops the email error and a non-empty one sets it exactly for an invalid email |
| `ForgotPassword.RequestOnlyWhenValid` | client/components/unauthorized/forgot-password/forgot-password-box/ForgotPasswordBox.tsx:75-80 | the request is sent exactly when the email passes the schema; otherwise only the email error is set; submitting always ends |
| `ForgotPassword.ResponseHandling` | client/components/unauthorized/forgot-password/forgot-password-box/ForgotPasswordBox.tsx:88-103 | a success clears the email and the errors and shows the server's or the default message; an error status shows its message; any other status the fixed unexpected-response error |
| `ForgotPassword.TracksPreserved` | client/components/unauthorized/forgot-password/forgot-password-box/ForgotPasswordBox.tsx:20-107 | edits and submits keep the validation errors in step with the email: only the email key, with the schema's message, set for a non-empty email exactly when it is invalid |
| `ForgotPassword.EnabledButtonSends` | client/components/unauthorized/forgot-password/forgot-password-box/ForgotPasswordBox.tsx:170 | with the errors in step with the email, pressing the enabled button always sends the request |
| `ForgotPassword.HintNeverShown` | client/components/unauthorized/forgot-password/forgot-password-box/ForgotPasswordBox.tsx:156-165 | the schema's message is never the one the longer hint replaces, so the hint is never shown |
| `UpdateInformationStepTwo.Sort` | client/components/authorized/influencer/update-info/step-two/UpdateInformationStepTwo.component.tsx:77 | the sort keeps the length and is a permutation of its input |
| `UpdateInformationStepTwo.Insert` | client/components/authorized/influencer/update-info/step-two/UpdateInformationStepTwo.component.tsx:77 | inserting an entry adds exactly that entry |
| `UpdateInformationStepTwo.SortSorted` | client/components/authorized/influencer/update-info/step-two/UpdateInformationStepTwo.component.tsx:77 | the sorted entries are ordered by the lower-cased first character of their values |
| `UpdateInformationStepTwo.SortStable` | client/components/authorized/influencer/update-info/step-two/UpdateInformationStepTwo.component.tsx:77 | the sort is stable: the entries of each first character keep their source order |
| `UpdateInformationStepTwo.ItemsShape` | client/components/authorized/influencer/update-info/step-two/UpdateInformationStepTwo.component.tsx:72-86 | a list keeps its length and ends with its own last entry, and the rest is the sorted permutation of the other entries |
| `UpdateInformationStepTwo.ItemsStable` | client/components/authorized/influencer/update-info/step-two/UpdateInformationStepTwo.component.tsx:75-78 | within the sorted part, entries of the same first character keep their source order |
| `UpdateInformationStepTwo.Values` | client/components/authorized/influencer/update-info/step-two/UpdateInformationStepTwo.component.tsx:79-82 | each rendered item's value is its entry's value, in order |
| `UpdateInformationStepTwo.ValuesDistinct` | client/components/authorized/influencer/update-info/step-two/UpdateInformationStepTwo.component.tsx:79-82 | source entries with distinct values give items with distinct values and keys, the last keeping its value |
| `UpdateInformationStepTwo.SpecializationEndsWithNicheOther` | client/components/authorized/influencer/update-info/step-two/UpdateInformationStepTwo.component.tsx:88-102 | as written, the specialization list ends with the niche list's "Other" entry, whose text is not its own |
| `UpdateInformationStepTwo.SpecializationEndsWithOwnOther` | client/components/authorized/influencer/update-info/step-two/UpdateInformationStepTwo.component.tsx:88-102 | with its own last entry appended, the specialization list keeps its length and ends with its own "Other" entry |
| `TagsInput.Candidate` | client/components/ui/improved-tags-input.tsx:64 | a non-empty suggestion is the candidate, and otherwise what was typed |
| `TagsInput.Without` | client/components/ui/improved-tags-input.tsx:72-74 | the filtered list holds exactly the tags other than the removed one, and is no longer |
| `TagsInput.Matching` | client/components/ui/improved-tags-input.tsx:43-49 | a suggestion is listed exactly when it contains the typed text without regard to case, is not a tag yet, and something is typed |
| `TagsInput.TagsInputWidget.constructor` | client/components/ui/improved-tags-input.tsx:20-30 | the widget starts with the parent's tags, an empty input and the dropdown closed |
| `TagsInput.TagsInputWidget.AddTag` | client/components/ui/improved-tags-input.tsx:63-70 | the new state is `addTag`'s outcome for the old one |
| `TagsInput.TagsInputWidget.RemoveTag` | client/components/ui/improved-tags-input.tsx:72-74 | the new state is `removeTag`'s outcome for the old one |
| `TagsInput.TagsInputWidget.HandleKeyDown` | client/components/ui/improved-tags-input.tsx:51-61 | the new state is the key's outcome: Enter adds, Backspace on an empty input removes the last tag, Escape closes the dropdown |
| `TagsInput.TagsInputWidget.HandleInputChange` | client/components/ui/improved-tags-input.tsx:76-79 | typing replaces the input and opens the dropdown exactly when something is typed |
| `TagsInput.TagsInputWidget.HandleInputFocus` | client/components/ui/improved-tags-input.tsx:81-85 | focus opens the dropdown when something is typed and otherwise leaves it |
| `TagsInput.TagsInputWidget.HandleInputBlurElapsed` | client/components/ui/improved-tags-input.tsx:87-90 | once the blur delay passes the dropdown is closed and nothing else changes |
| `TagsInput.AddTagBehaviour` | client/components/ui/improved-tags-input.tsx:63-70 | the trimmed candidate is appended exactly when it is non-empty, new and the list is not full; otherwise nothing changes |
| `TagsInput.InputClearedOnlyOnAdd` | client/components/ui/improved-tags-input.tsx:65-69 | typed text is cleared exactly when a tag was added |
| `TagsInput.AddTagKeepsValid` | client/components/ui/improved-tags-input.tsx:63-70 | adding keeps the list duplicate-free, within the limit, and made of trimmed non-empty tags |
| `TagsInput.WithoutCounts` | client/components/ui/improved-tags-input.tsx:73 | removal drops every copy of the tag and keeps every other tag with its multiplicity |
| `TagsInput.RemoveTagKeepsValid` | client/components/ui/improved-tags-input.tsx:72-74 | removal keeps the list valid |
| `TagsInput.BackspaceRemovesLast` | client/components/ui/improved-tags-input.tsx:55-57 | Backspace on an empty input removes exactly the last tag of a duplicate-free list |
| `TagsInput.BackspaceOtherwiseInert` | client/components/ui/improved-tags-input.tsx:55 | Backspace with text typed or no tags changes nothing |
| `TagsInput.SuggestionOrder` | client/components/ui/improved-tags-input.tsx:43-49 | matching caller suggestions come before matching defaults; at most five, the first matches, are shown; nothing shows for an empty input |
| `TagsInput.SuggestsIgnoresCase` | client/components/ui/improved-tags-input.tsx:46 | the match ignores ASCII case: upper- and lower-cased typing find the same suggestion |
| `TagsInput.EnabledAddAdds` | client/components/ui/improved-tags-input.tsx:107-110 | an enabled Add button with a new value always adds its trimmed text, clears the input and closes the dropdown |
| `TermsCheckBoxes.AcceptAllCheckedIff` | client/components/unauthorized/signup/terms-check-boxs/TermsCheckBoxes.component.tsx:14-20 | "accept all" shows checked exactly when terms, data compliance and marketing are all accepted, whatever the privacy flag |
| `TermsCheckBoxes.AcceptAllSetsEverything` | client/components/unauthorized/signup/terms-check-boxs/TermsCheckBoxes.component.tsx:21-30 | toggling "accept all" first sets all three consents to the new value, and passes that same value to the privacy callback exactly when one was given |
| `TermsCheckBoxes.IndividualBoxChangesOnlyItself` | client/components/unauthorized/signup/terms-check-boxs/TermsCheckBoxes.component.tsx:41-106 | each consent box sets its own consent, keeps the other two, and makes no privacy call |
| `TermsCheckBoxes.PrivacyBoxLeavesConsent` | client/components/unauthorized/signup/terms-check-boxs/TermsCheckBoxes.component.tsx:79-87 | the privacy box never builds a consent record and calls the privacy callback first when there is one |
| `TermsCheckBoxes.EveryChangeClearsError` | client/components/unauthorized/signup/terms-check-boxs/TermsCheckBoxes.component.tsx:29-105 | every box change ends by calling the error-clear callback when one was given |
| `InfluencerSignUp.SignUpBox.constructor` | client/components/unauthorized/signup/signup-box/InfluencerSignUp.tsx:11-28 | the box starts with empty fields, no consents, no privacy flag, no banners and no request made |
| `InfluencerSignUp.SignUpBox.SetData` | client/components/unauthorized/signup/signup-box/InfluencerSignUp.tsx:125-199 | an input change replaces the field record and nothing else |
| `InfluencerSignUp.SignUpBox.HandleSignUp` | client/components/unauthorized/signup/signup-box/InfluencerSignUp.tsx:42-106 | the new state is the sign-up outcome for the old state, and a registration request is recorded exactly when the outcome sends one |
| `InfluencerSignUp.SignUpBox.ToggleBox` | client/components/unauthorized/signup/signup-box/InfluencerSignUp.tsx:237-248 | a checkbox change applies, in order, the callback calls the checkboxes make for it, with both optional callbacks passed |
| `InfluencerSignUp.YearOptions` | client/components/unauthorized/signup/signup-box/InfluencerSignUp.tsx:208-222 | the options run from the current year minus 13 down to 1900, one per year, and there are none when that window is empty |
| `InfluencerSignUp.MissingFieldReportedFirst` | client/components/unauthorized/signup/signup-box/InfluencerSignUp.tsx:47-52 | a missing required field is reported before the year and the consents are checked |
| `InfluencerSignUp.YearCheckMatchesSchema` | client/components/unauthorized/signup/signup-box/InfluencerSignUp.tsx:55-60 | with every field filled, the year error shows exactly when the registration schema's year rule fails |
| `InfluencerSignUp.ConsentOrder` | client/components/unauthorized/signup/signup-box/InfluencerSignUp.tsx:62-75 | past the field and year checks, terms, then data compliance, then privacy policy are required, in that order |
| `InfluencerSignUp.RegistrationOnlyWhenValid` | client/components/unauthorized/signup/signup-box/InfluencerSignUp.tsx:42-81 | registration with the fields and consents is requested exactly when every check passes; otherwise only the first failing message is shown |
| `InfluencerSignUp.MarketingNeverRequired` | client/components/unauthorized/signup/signup-box/InfluencerSignUp.tsx:62-75 | the marketing opt-in never changes the checks' verdict |
| `InfluencerSignUp.NavigatesOnlyAfterSignIn` | client/components/unauthorized/signup/signup-box/InfluencerSignUp.tsx:85-105 | the page moves to the additional-information step exactly after valid input, a successful registration and a successful sign-in |
| `InfluencerSignUp.HandleConsentEffect` | client/components/unauthorized/signup/signup-box/InfluencerSignUp.tsx:32-40 | `handleConsent` sets the named consent; for the terms it also sets the privacy flag, and nothing else changes |
| `InfluencerSignUp.TermsBoxLeavesPrivacy` | client/components/unauthorized/signup/signup-box/InfluencerSignUp.tsx:237-248 | the terms checkbox alone sets the terms and clears the error but leaves the privacy flag as it was |
| `InfluencerSignUp.AcceptAllPassesConsentChecks` | client/components/unauthorized/signup/signup-box/InfluencerSignUp.tsx:237-248 | "accept all" sets the three consents and the privacy flag to the new value and clears the error |
| `InfluencerSignUp.ConsentsGivenLeaveDataChecks` | client/components/unauthorized/signup/signup-box/InfluencerSignUp.tsx:47-75 | with the consents given, only a missing field or a bad year can stop the sign-up |
| `InfluencerSignUp.YearOptionsPass` | client/components/unauthorized/signup/signup-box/InfluencerSignUp.tsx:208-222 | the listed years strictly decrease, lie in the allowed window, and each passes the year check when selected |
| `BrandSignUp.SignUpBox.constructor` | client/components/unauthorized/signup/signup-box/BrandSignUp.tsx:51-60 | the box starts on the first step with no consents, no banners, not loading and no request made |
| `BrandSignUp.SignUpBox.Next` | client/components/unauthorized/signup/signup-box/BrandSignUp.tsx:74-86 | the step pair afterwards is `next`'s outcome, and the step stays within the three steps |
| `BrandSignUp.SignUpBox.Prev` | client/components/unauthorized/signup/signup-box/BrandSignUp.tsx:88-93 | the step pair afterwards is `prev`'s outcome, and the step stays within the three steps |
| `BrandSignUp.SignUpBox.ClearErrors` | client/components/unauthorized/signup/signup-box/BrandSignUp.tsx:95-98 | both the error and the success banner are cleared |
| `BrandSignUp.SignUpBox.SetConsent` | client/components/unauthorized/signup/signup-box/BrandSignUp.tsx:368-372 | the checkboxes' setter replaces the consent record |
| `BrandSignUp.SignUpBox.HandleSignUp` | client/components/unauthorized/signup/signup-box/BrandSignUp.tsx:100-152 | the new page is the sign-up outcome for the old one, and a registration request is recorded exactly when the outcome sends one |
| `BrandSignUp.NextMovesOnlyWhenValid` | client/components/unauthorized/signup/signup-box/BrandSignUp.tsx:74-86 | `next` moves exactly when the step's fields all validate and it is not the last step, and then forward by one, recording the step it left |
| `BrandSignUp.PrevMovesBackByOne` | client/components/unauthorized/signup/signup-box/BrandSignUp.tsx:88-93 | `prev` moves back by one above the first step, recording the step it left, and does nothing on the first |
| `BrandSignUp.FieldIssuesReportEveryFailure` | client/components/unauthorized/signup/signup-box/BrandSignUp.tsx:14-28 | the schema reports no field issue exactly when `trigger` of the same fields passes, and it reports every failing field with its message |
| `BrandSignUp.UsernameNeverValidated` | client/components/unauthorized/signup/signup-box/BrandSignUp.tsx:32-48 | no step lists the username among its fields |
| `BrandSignUp.StepsPassWithoutUsername` | client/components/unauthorized/signup/signup-box/BrandSignUp.tsx:22-48 | every step passes with an empty username, which the schema rejects |
| `BrandSignUp.FormSchemaRejectsMissingConsent` | client/components/unauthorized/signup/signup-box/BrandSignUp.tsx:23-72 | a form without the consent object always ends its schema issues with the consent object missing |
| `BrandSignUp.RegistrationNeedsConsents` | client/components/unauthorized/signup/signup-box/BrandSignUp.tsx:100-124 | registration is requested exactly when terms and data compliance are accepted; it carries the consents, a privacy flag equal to the terms, the username and the email, and loading ends afterwards |
| `BrandSignUp.EnabledButtonPassesGate` | client/components/unauthorized/signup/signup-box/BrandSignUp.tsx:375 | the submit button is disabled exactly when a required consent is missing or a request is in flight, so an enabled button passes the consent gate |
| `BrandSignUp.NavigatesOnlyAfterSignIn` | client/components/unauthorized/signup/signup-box/BrandSignUp.tsx:127-145 | the page moves on exactly after the consent gate, a successful registration and a successful sign-in |
| `BrandSignUp.PrivacyBoxOnlyClears` | client/components/unauthorized/signup/signup-box/BrandSignUp.tsx:368-372 | without a privacy callback, the privacy checkbox only clears the banners |
| `BrandProfileUpdate.NestedDefaults` | client/components/authorized/brand/profile-update/BrandProfileUpdateForm.component.tsx:86-95 | the nested defaults have exactly the four social-media and two payment keys |
| `BrandProfileUpdate.ProfileForm.constructor` | client/components/authorized/brand/profile-update/BrandProfileUpdateForm.component.tsx:53-56 | the form starts on the first step, not submitting, not succeeded, with no field errors, no toast and nothing sent |
| `BrandProfileUpdate.ProfileForm.HandleNext` | client/components/authorized/brand/profile-update/BrandProfileUpdateForm.component.tsx:118-142 | the step afterwards is `handleNext`'s outcome for the schema's issues, and stays within the three steps |
| `BrandProfileUpdate.ProfileForm.HandlePrevious` | client/components/authorized/brand/profile-update/BrandProfileUpdateForm.component.tsx:144-148 | the step afterwards is one lower above the first step, and stays within the three steps |
| `BrandProfileUpdate.ProfileForm.Report` | client/components/authorized/brand/profile-update/BrandProfileUpdateForm.component.tsx:206-258 | the field errors and the toast become the classification of the caught failure |
| `BrandProfileUpdate.ProfileForm.HandleFormSubmit` | client/components/authorized/brand/profile-update/BrandProfileUpdateForm.component.tsx:150-318 | the new page is the submit outcome for the schema's verdict on the values: invalid values never reach the handler and leave the page, earlier field errors included, as it was; the values are recorded as sent exactly when the route is called |
| `BrandProfileUpdate.EmailRuleFirst` | client/components/authorized/brand/profile-update/BrandProfileUpdateForm.component.tsx:220-225 | a message naming the email with a duplicate word sets only the email field error, even when it also names the username |
| `BrandProfileUpdate.UsernameRuleSecond` | client/components/authorized/brand/profile-update/BrandProfileUpdateForm.component.tsx:226-231 | the username field error is set exactly when the email rule does not apply and the username rule does |
| `BrandProfileUpdate.AtMostOneFieldError` | client/components/authorized/brand/profile-update/BrandProfileUpdateForm.component.tsx:209-258 | at most one field error is set, exactly when the toast asks to check the input, and otherwise the toast is titled "Update Failed" |
| `BrandProfileUpdate.UnmatchedPassThrough` | client/components/authorized/brand/profile-update/BrandProfileUpdateForm.component.tsx:232-242 | an unmatched message is shown as it is, a thrown string verbatim, and anything else, an empty message included, gets the default text |
| `BrandProfileUpdate.ResponseFailureMessage` | client/components/authorized/brand/profile-update/BrandProfileUpdateForm.component.tsx:203-205 | a failed response is thrown with the server message, or "Update failed" when it has none, so its message is never empty |
| `BrandProfileUpdate.StepsStayInRange` | client/components/authorized/brand/profile-update/BrandProfileUpdateForm.component.tsx:118-148 | both moves keep the step in range; `handleNext` advances exactly below the last step when the step's fields validate; the last step validates nothing |
| `BrandProfileUpdate.DefaultsFallBack` | client/components/authorized/brand/profile-update/BrandProfileUpdateForm.component.tsx:74-97 | a missing stored string defaults to "", the email falls back to the session's, and no password or campaign list is a default |
| `BrandProfileUpdate.SubmitNeedsValidValues` | client/components/authorized/brand/profile-update/BrandProfileUpdateForm.component.tsx:150-318 | the route is called exactly for valid values; invalid values change nothing on the page; after a call submitting has ended and at most one field error is set; success is set only by a successful response; a toast follows every call and none without one |
| `InfluencerProfileUpdate.InfluencerProfileForm.constructor` | client/components/authorized/influencer/profile-update/InfluencerProfileUpdateForm.component.tsx:39-42 | the form starts on the first step, not submitting, not succeeded, with no field errors, no toast and nothing sent |
| `InfluencerProfileUpdate.InfluencerProfileForm.ClearFieldError` | client/components/authorized/influencer/profile-update/InfluencerProfileUpdateForm.component.tsx:105-111 | exactly the named key leaves the field errors |
| `InfluencerProfileUpdate.InfluencerProfileForm.HandleNext` | client/components/authorized/influencer/profile-update/InfluencerProfileUpdateForm.component.tsx:148-161 | the step afterwards is `handleNext`'s outcome for the schema's issues, and stays within the two steps |
| `InfluencerProfileUpdate.InfluencerProfileForm.HandlePrevious` | client/components/authorized/influencer/profile-update/InfluencerProfileUpdateForm.component.tsx:163-167 | the step afterwards is one lower above the first step, and stays within the two steps |
| `InfluencerProfileUpdate.InfluencerProfileForm.Report` | client/components/authorized/influencer/profile-update/InfluencerProfileUpdateForm.component.tsx:227-279 | the field errors and the toast become the classification of the caught failure, as on the brand form |
| `InfluencerProfileUpdate.InfluencerProfileForm.HandleFormSubmit` | client/components/authorized/influencer/profile-update/InfluencerProfileUpdateForm.component.tsx:171-339 | the new page is the submit outcome for the schema's verdict on the values: invalid values leave the page unchanged, and the values are recorded as sent exactly when the route is called |
| `InfluencerProfileUpdate.InfluencerProfileForm.Submit` | client/components/authorized/influencer/profile-update/InfluencerProfileUpdateForm.component.tsx:171-339 | for the form library's verdict: an invalid one never calls the handler and changes nothing; a valid one gives the submit outcome, and the values are recorded as sent exactly when the route is called |
| `InfluencerProfileUpdate.ClearFieldErrorExact` | client/components/authorized/influencer/profile-update/InfluencerProfileUpdateForm.component.tsx:105-111 | after clearing, the named key is gone and every other key keeps its message |
| `InfluencerProfileUpdate.InfluencerStepsStayInRange` | client/components/authorized/influencer/profile-update/InfluencerProfileUpdateForm.component.tsx:148-167 | both moves keep the step in range, and `handleNext` advances exactly from the first step when its listed fields validate |
| `InfluencerProfileUpdate.EmptyCityBlocksFirstStep` | client/components/authorized/influencer/profile-update/InfluencerProfileUpdateForm.component.tsx:150-160 | an empty city keeps the form on the first step |
| `InfluencerProfileUpdate.InfluencerDefaultsFallBack` | client/components/authorized/influencer/profile-update/InfluencerProfileUpdateForm.component.tsx:60-83 | a missing stored string defaults to "", a missing flag to false, and the email falls back to the session's |
| `CreateCampaignForm.CampaignForm.constructor` | client/components/authorized/brand/campaign/create-campaign/create-campaign-form/CreateCampaignForm.component.tsx:122-125 | the form starts on the first step with no toast, no navigation and nothing sent |
| `CreateCampaignForm.CampaignForm.NextStep` | client/components/authorized/brand/campaign/create-campaign/create-campaign-form/CreateCampaignForm.component.tsx:177-198 | the result is the current step's validation verdict, the new page is `nextStep`'s outcome, and the step stays within the three steps |
| `CreateCampaignForm.CampaignForm.PrevStep` | client/components/authorized/brand/campaign/create-campaign/create-campaign-form/CreateCampaignForm.component.tsx:201-205 | the step becomes one lower above the first step, and stays within the three steps |
| `CreateCampaignForm.CampaignForm.OnChange` | client/components/authorized/brand/campaign/create-campaign/create-campaign-form/CreateCampaignForm.component.tsx:291-294 | the step indicator sets the step it names, with no validation |
| `CreateCampaignForm.CampaignForm.HandleFormSubmit` | client/components/authorized/brand/campaign/create-campaign/create-campaign-form/CreateCampaignForm.component.tsx:207-289 | the new page is the submit outcome, and the campaign's dates are recorded as sent exactly when the route is called |
| `CreateCampaignForm.EndDateMustFollowStart` | client/components/authorized/brand/campaign/create-campaign/create-campaign-form/CreateCampaignForm.component.tsx:80-125 | the first step is valid exactly when its fields pass and the end date is after the start date, the failure being reported on the end date; the other steps check only their fields |
| `CreateCampaignForm.NextAdvancesOnlyWhenValid` | client/components/authorized/brand/campaign/create-campaign/create-campaign-form/CreateCampaignForm.component.tsx:177-198 | `nextStep` advances by one exactly when the step is valid and not the last, otherwise stays, and changes the toast only when the step is invalid |
| `CreateCampaignForm.SubmitCheckOrder` | client/components/authorized/brand/campaign/create-campaign/create-campaign-form/CreateCampaignForm.component.tsx:207-289 | the route is called exactly past the step, brand-id and full-schema checks; the first failing check decides the toast title; navigation follows only a successful response; the step never changes |
| `CreateCampaignForm.JumpSkipsDateCheck` | client/components/authorized/brand/campaign/create-campaign/create-campaign-form/CreateCampaignForm.component.tsx:80-294 | after a jump to the last step, an end date before the start date passes the step check, and only the full schema stops the submit |
| `BrandUpdateSchema.Parse` | client/lib/api/update-data/brand/brandUpdateData.validation.tsx:3-28 | parsing succeeds exactly when there are no issues and then returns the update unchanged; otherwise it returns every issue |
| `BrandUpdateSchema.AcceptedIff` | client/lib/api/update-data/brand/brandUpdateData.validation.tsx:3-28 | an update is accepted exactly when each present field meets its own rule: non-empty names, username, company, position and business type; a URL or "" website; a valid email; an 8-character password; a pattern or "" phone number |
| `BrandUpdateSchema.EmptyValidates` | client/lib/api/update-data/brand/brandUpdateData.validation.tsx:3-28 | the update with no field present is accepted unchanged, whatever the email and URL checks say |
| `BrandUpdateSchema.EmptyLiteralsAccepted` | client/lib/api/update-data/brand/brandUpdateData.validation.tsx:8-14 | an empty website or phone number is treated like an absent one, although the phone pattern rejects "" |
| `BrandUpdateSchema.ShortPhoneAccepted` | client/lib/api/update-data/brand/brandUpdateData.validation.tsx:14 | the brand phone pattern accepts a two-digit number that the influencer rule rejects |
| `BrandUpdateSchema.FormattedPhoneRejected` | client/lib/api/update-data/brand/brandUpdateData.validation.tsx:14 | any character other than a digit or the leading plus fails the phone pattern |
| `BrandUpdateSchema.ShortPasswordReported` | client/lib/api/update-data/brand/brandUpdateData.validation.tsx:10 | a present password shorter than eight characters is reported on the password path |
| `InfluencerUpdateSchema.Cleaned` | client/lib/api/update-data/influencer/influencerFullUpdateData.validation.ts:10 | the cleaned phone value keeps only digits and plus signs and is no longer than the input |
| `InfluencerUpdateSchema.Parse` | client/lib/api/update-data/influencer/influencerFullUpdateData.validation.ts:21-79 | parsing succeeds exactly when there are no issues and then returns the record unchanged; otherwise it returns every issue |
| `InfluencerUpdateSchema.AcceptedIff` | client/lib/api/update-data/influencer/influencerFullUpdateData.validation.ts:4-79 | a record is accepted exactly when names have 1 to 50 characters, the email is valid and non-empty, the username has 3 to 30 word characters, the phone is non-empty and well formed, and country, city, primary niche and specialisation are non-empty |
| `InfluencerUpdateSchema.OptionalFieldsFree` | client/lib/api/update-data/influencer/influencerFullUpdateData.validation.ts:43-60 | the bio, the secondary niche and every boolean never change acceptance |
| `InfluencerUpdateSchema.CleanedAppend` | client/lib/api/update-data/influencer/influencerFullUpdateData.validation.ts:10 | cleaning a concatenation is the concatenation of the cleaned parts |
| `InfluencerUpdateSchema.FormattingIgnored` | client/lib/api/update-data/influencer/influencerFullUpdateData.validation.ts:7-15 | inserting any character other than a digit or plus never changes the phone verdict |
| `InfluencerUpdateSchema.InnerPlusRejected` | client/lib/api/update-data/influencer/influencerFullUpdateData.validation.ts:10-14 | a plus left after cleaning anywhere but first makes the phone number invalid |
| `InfluencerUpdateSchema.AcceptedPhoneDigits` | client/lib/api/update-data/influencer/influencerFullUpdateData.validation.ts:13 | an accepted phone number cleans to 7 to 15 digits, after an optional plus, the first not 0 |
| `InfluencerUpdateSchema.CleanPhonePassesBrandPattern` | client/lib/api/update-data/influencer/influencerFullUpdateData.validation.ts:13 | an accepted phone number that needs no cleaning also passes the looser 2-to-15-digit pattern |
| `InfluencerUpdateSchema.UsernameBounds` | client/lib/api/update-data/influencer/influencerFullUpdateData.validation.ts:33-37 | a username of word characters is accepted exactly when it has 3 to 30 of them |
| `InfluencerRegisterSchema.Parse` | client/lib/api/register/influencer/influencerRegister.validation.ts:3-29 | parsing succeeds exactly when there are no issues and then returns the record unchanged; otherwise it returns every issue |
| `InfluencerRegisterSchema.AcceptedIff` | client/lib/api/register/influencer/influencerRegister.validation.ts:3-29 | a record is accepted exactly when both names are non-empty, the email is valid, the password has 6 characters, the username has 3 letters, digits, underscores or dashes, and the year passes; the consent object never matters |
| `InfluencerRegisterSchema.YearWindow` | client/lib/api/register/influencer/influencerRegister.validation.ts:17-23 | a decimal year followed by a tail that cannot extend the numeral is accepted exactly when it lies between 1900 and the current year minus 13 |
| `InfluencerRegisterSchema.DigitPrefixAccepted` | client/lib/api/register/influencer/influencerRegister.validation.ts:18 | "1990abc" is accepted, since `parseInt` reads only its digits |
| `InfluencerRegisterSchema.LetterPrefixRejected` | client/lib/api/register/influencer/influencerRegister.validation.ts:18-20 | a value starting with a letter reads as NaN and is rejected |
| `InfluencerRegisterSchema.NoUsernameUpperBound` | client/lib/api/register/influencer/influencerRegister.validation.ts:8-16 | a valid username stays valid however long it is extended |
| `ResetPasswordSchema.FirstLine` | client/lib/api/reset-password/resetPassword.validation.ts:8 | the part the strength pattern can see is the longest prefix free of line terminators: a prefix of the input, stopped only by a terminator |
| `ResetPasswordSchema.Parse` | client/lib/api/reset-password/resetPassword.validation.ts:17-24 | parsing succeeds exactly when there are no issues and then returns the reset unchanged; otherwise it returns every issue |
| `ResetPasswordSchema.StrongPasswordIff` | client/lib/api/reset-password/resetPassword.validation.ts:4-10 | a password is strong exactly when it has eight characters and, before any line break, a lower-case letter, an upper-case letter and a digit |
| `ResetPasswordSchema.AcceptedIff` | client/lib/api/reset-password/resetPassword.validation.ts:12-24 | a reset is accepted exactly when the token is present, the new password is strong and the confirmation equals it |
| `ResetPasswordSchema.AcceptedConfirmationStrong` | client/lib/api/reset-password/resetPassword.validation.ts:17-24 | an accepted confirmation is itself a strong password |
| `ResetPasswordSchema.MismatchReportedOnConfirmation` | client/lib/api/reset-password/resetPassword.validation.ts:21-24 | a mismatch is the last issue, reported on the confirmation, whatever else fails |
| `ResetPasswordSchema.FirstLineStops` | client/lib/api/reset-password/resetPassword.validation.ts:8 | the visible part of a text with a line break is exactly what precedes the first break |
| `ResetPasswordSchema.TextAfterLineBreakIgnored` | client/lib/api/reset-password/resetPassword.validation.ts:8 | letters and digits after the first line break never help a password pass the strength pattern |
| `ContactUs.LocalLength` | client/components/unauthorized/contact-us/ContactUs.component.tsx:43 | the measured prefix holds no `@` and ends at the first `@`, or at the end of the text |
| `ContactUs.ContactForm.constructor` | client/components/unauthorized/contact-us/ContactUs.component.tsx:22-31 | the form starts empty, with no errors, not submitting and no banner |
| `ContactUs.ContactForm.CheckFields` | client/components/unauthorized/contact-us/ContactUs.component.tsx:34-56 | the error object built is `validateForm`'s, field by field |
| `ContactUs.ContactForm.ValidateForm` | client/components/unauthorized/contact-us/ContactUs.component.tsx:34-59 | the stored errors are the form's validation, and the result says whether there are none |
| `ContactUs.ContactForm.HandleInputChange` | client/components/unauthorized/contact-us/ContactUs.component.tsx:62-75 | the new state sets the edited field and clears that field's error when it had one |
| `ContactUs.ContactForm.HandleSubmit` | client/components/unauthorized/contact-us/ContactUs.component.tsx:78-110 | the new state is the submit outcome, and a send happens exactly when the form validates |
| `ContactUs.ContactForm.Send` | client/components/unauthorized/contact-us/ContactUs.component.tsx:85-109 | a send ends with the form emptied, the banner shown and the submitting flag lowered |
| `ContactUs.ContactForm.HideSuccess` | client/components/unauthorized/contact-us/ContactUs.component.tsx:101-103 | the banner's timeout hides it and changes nothing else |
| `ContactUs.ValidIff` | client/components/unauthorized/contact-us/ContactUs.component.tsx:34-59 | the form is valid exactly when name and subject are not blank, the email is not blank and matches the pattern, and the trimmed message has ten characters |
| `ContactUs.RequiredTakesPrecedence` | client/components/unauthorized/contact-us/ContactUs.component.tsx:37-55 | a blank field is reported as required, whatever else is wrong with it |
| `ContactUs.LeadingSpaceIsFormatError` | client/components/unauthorized/contact-us/ContactUs.component.tsx:41-45 | an email with a leading space is reported as malformed, not as missing, since the pattern sees the untrimmed value |
| `ContactUs.EditTouchesOneField` | client/components/unauthorized/contact-us/ContactUs.component.tsx:62-75 | editing a field leaves every other field, every other error and both flags as they were |

## Left out

- Mongoose and the database: collections are in-memory sequences. `findOne` and `findOneAndUpdate` act on the first match. `populate`, `sort` and the schema declarations are not modelled beyond the shapes and enums the services rely on.
- Rejected database calls: outside the token jobs and the subscription webhook's update, every database read and write is taken to succeed. This covers the subscription, campaign and payment services and the click-log and campaign controllers. A rejected call, which the source turns into a thrown error (and in the payment service a session abort), is not modelled there.
- The Mongo session transactions in `server/src/services/payment.service.ts`: an aborted call is modelled as an error result with every collection unchanged. The payment's "failed" status written before an abort is therefore rolled back too.
- HTTP and provider clients: the Paystack HTTP methods, the metric services, the client's route wrappers, `signIn`, `useSession` and the router are outside the model. Their results are parameters, including a thrown exception.
- Pydantic settings resolution (the .env file, field-name lookup, required-field errors) is taken as its result, the input `resolved`.
- Zod's `.email()` and `.url()`, HMAC-SHA512, `isValidObjectId` and float parsing of `TEMPERATURE` are abstract predicates or functions passed in by the caller.
- JavaScript `Date` month and year arithmetic is an abstract "one month/year later" function on integer millisecond timestamps. A week is 7 × 86400000 ms; daylight-saving changes are ignored.
- `Math.random` and `Date.now()` in `generateReference` are parameters. So are the clock in every time-dependent check and the current year in the birth-year checks.
- Floating point: amounts, scores and analytics are exact reals. JavaScript's binary rounding of the 8 % commission is therefore not modelled. Naira-to-kobo rounding is modelled as round-half-up (`Math.round`) on reals.
- `parseInt` is modelled on a leading decimal digit run. Its precision limits on very long digit strings are not modelled.
- `toFixed` text, date formatting and `JSON.stringify` are not modelled. A score is shown as its value with the number of decimals it is printed with, and an object offer carries its JSON text.
- Strings are sequences of characters: UTF-16 code units are not distinguished from code points, and case mapping covers the ASCII letters only. For example, `toUpperCase` of a non-ASCII first letter in the invitation status label is not modelled.
- `localeCompare` on the single lower-cased first characters of the option lists is taken as code order.
- Timers: the polling interval, the 200 ms delay before the tag dropdown closes, the five-second contact-form banner and the redirect delays after sign-up and profile updates are not modelled as time. The delay is treated as elapsed, the banner is cleared by a separate call, and a redirect is immediate.
- `isSubmitting` flags and the rendering of spinners on buttons are not modelled, except where a predicate reads them (the forgot-password button).
- The contact form's submit is simulated by the source with a delay; it is modelled as completing in one step.
- The chat-room creation after an accept is a call into another service. The controller model records that a room is requested and when.
- `calculateContentQualityScore` (`server/src/services/campaignAnalytics.service.ts:50-62`) is not modelled. The fold takes each record's stored score.
- The referral-click handler's device and location lookups and its `$set lastUpdated` are not modelled; only the log entry and the conversion count are.
- Token maintenance: a failure of the initial `find` of accounts, and the outcome of the refresh call itself, are not modelled. The job's part in a refresh is the request it makes.
- The Facebook and Twitter token jobs and `scheduler.cron.ts` are not part of this model. They depend on helpers that are not in the repository's shown sources, or only wrap a foreign call.
- Follower-tier enforcement in `applyToCampaign` is commented out in the source. The tier classifier is modelled, but applying does not depend on it.
- The campaign field schemas (`campaignSchema`) are not part of this model. Whether a step's fields validate, and the full schema's verdict and issues, are parameters of the campaign wizard.
- The profile forms' optional `onSuccess` callback, called two seconds after a successful update, is not modelled. Neither is the session update that precedes it.
- `Campaigns.CampaignProvider.AcceptInfluencerForCampaign`: returns the updated invitation, while the source returns the updated campaign document. The campaign's new state is stated as part of the store's state in the same contract.
- `CreateCampaignForm.CampaignForm.OnChange`: requires the step index to be within 0..2. The stepper component only emits the indices of its rendered steps, so the source never passes another value.
- The `ZodError` branch of the two profile forms' submit handlers is not modelled. The submit re-parses with the same schema that `trigger()` has just accepted, so the branch cannot be reached.
- The login form's `|| "Invalid input"` fallback is not modelled, because a failed Zod parse always carries at least one message.
- `handleConsent` in `InfluencerSignUp.tsx` is modelled as written, although no checkbox in the component calls it.
- Nested `rawFormData` objects in the profile forms are flattened to dotted field names.

## Findings

| source | as written | input that shows it | evidently intended | confidence | as-written member | corrected member |
|---|---|---|---|---|---|---|
| client/components/authorized/influencer/update-info/step-two/UpdateInformationStepTwo.component.tsx:94 | the specialization list is closed with `nicheData.slice(-1)`, the niche list's "Other (for categories not listed)" entry | the component's own data, whose last specialization entry is "Other (for specializations not listed)" | `specializationData.slice(-1)`, so the list ends with its own "Other" entry, as the niche list does at line 78 | not executed | `UpdateInformationStepTwo.SpecializationEndsWithNicheOther` | `UpdateInformationStepTwo.SpecializationEndsWithOwnOther` |
| server/src/services/payment.service.ts:27-43 | the influencer is read with `.select('paystackRecipientCode')`, so `influencer.payoutPreference` is never loaded and the transaction is built with the loaded preference or else "bank", hence always with "bank", which the schema's enum `['direct_bank', 'platform_wallet']` (server/src/models/transaction.model.ts:29-33) refuses; `transaction.save` throws and the session aborts | any influencer that exists, for instance one whose stored preference is "direct_bank", with any amount and a working provider | the influencer's stored preference is loaded, and an unset one takes the schema's default "direct_bank", so the pending transaction is stored | not executed | `Payments.InitiateAlwaysRejected` | `Payments.IntendedInitiateStores` |
| server/src/services/subscription.service.ts:215 | `changeSubscription` compares `currentSubscription.planId.toString()` with the new plan's id, but `getUserActiveSubscription` (line 202) populates `planId`, so the left side is the text of a plan document and never equals an id | a user with an active subscription to plan P who asks to change to P | the populated plan's id is compared, so a change to the current plan is refused with "You are already subscribed to this plan" and nothing is cancelled | not executed | `Subscriptions.ChangeToSamePlanRecreates` | `Subscriptions.IntendedChangeToSamePlanRefused` |
