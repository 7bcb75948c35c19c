# Apocalypse Academy client services in Dafny

This project models the client-side service layer of the Apocalypse Academy
site and proves properties of it. It covers five services:

- **CourseService**:
  - the catalog filter with its case-insensitive search;
  - the course-details cache;
  - the per-user, per-course progress records that lesson-watch events update.
- **AuthService**: the tier-based access table, and the session whose current user is
  mirrored into the browser store under `apocalypseUser`.
- **PaymentService**:
  - the plan and payment-method tables;
  - the chain of payment-detail validators and the simplified CPF check;
  - the subscription, invoice and plan-change records.
- **IntegrationService**: the Spotify / Telegram / WhatsApp connection flags, the
  connect and disconnect operations, and the operations guarded by them.
- **VideoService**:
  - the provider setter and its invariant;
  - the speed-to-quality thresholds and the quality ladder;
  - the stream-URL builder.

Where the source mutates an object, the model does too. The progress store,
the details cache, the session, the integration table and the current video
provider are class fields, updated by methods with `modifies` clauses. The
lesson search and the module-flag pass are `while` loops. Each method is
proved against a specification function. The filter pipeline, the validators,
the access table and the URL builder are pure, so they are functions with
lemmas.

Modelling decisions:

- Every operation is synchronous; the simulated network delays are dropped.
- Identifiers and timestamps taken from the clock are parameters or left out.
- Money is integer cents. Watch times and durations are integer seconds.
- The completion threshold `watchTime >= 0.9 * duration` is stated exactly as
  `10 * watchTime >= 9 * duration`.
- The overall percentage is a `real`.
- JavaScript's `undefined` arguments and data fields are `None`.
- Object spreads and `Object.assign` are right-biased map and record merges.
- Property tests such as `if (obj[key])` are modelled as tests for an own key,
  except in the two findings below. There the names every object inherits
  (`constructor`, `toString`, `__proto__`, …) are modelled explicitly.

Files:

- `common.dfy`: Option/Result, `filter` and `find`, lower-casing, substring search
  and `slice(-n)`.
- `course_catalog.dfy`: `getCourses`.
- `course_progress.dfy`: the progress record and the lesson-event rule.
- `course_service.dfy`: the course mock data and the `CourseService` class.
- `auth_service.dfy`, `payment_service.dfy`, `integration_service.dfy` and
  `video_service.dfy`: one file per service.

## Model

| member | source | states |
|---|---|---|
| CourseCatalog.Catalog | CourseService.js:19-107 | the mock catalog has exactly five courses |
| CourseCatalog.GetCourses | CourseService.js:108-131 | a course is returned iff it is in the catalog and meets every truthy filter |
| CourseCatalog.FilterCourses | CourseService.js:108-131 | the filter chain returns no more courses than it is given, all drawn from them |
| CourseCatalog.SearchStepMeaning | CourseService.js:122-129 | the search step keeps a course iff the lower-cased term occurs in the lower-cased title, description or some tag; a falsy term keeps everything |
| CourseCatalog.StepsMeaning | CourseService.js:110-129 | the four chained filters together keep exactly the courses that match all truthy filters; `featured: false` imposes nothing |
| CourseCatalog.FilterCoursesIsFilter | CourseService.js:108-131 | the chain of four filters equals a single filter by the conjunction |
| CourseCatalog.GetCoursesKeepsOrder | CourseService.js:108-131 | the result is an order-preserving subsequence of the catalog |
| CourseCatalog.FalsyFiltersReturnAll | CourseService.js:108-131 | with no truthy filter all five courses come back in catalog order |
| CourseProgress.InitialProgress | CourseService.js:318-336 | the fresh record has the ids, no completed lessons, 0 percent, no certificate, and module and lesson entries mirroring the course in order, all incomplete with zero watch time and position |
| CourseProgress.InitialProgressInvariant | CourseService.js:318-336 | a fresh record satisfies the record invariant |
| CourseProgress.LocateLesson | CourseService.js:371-380 | there is no position iff no module has the lesson; otherwise it is the first module and lesson entry with that id |
| CourseProgress.RefreshModuleFlags | CourseService.js:400-403 | each module keeps its lessons and gets `completed` = all its lessons are completed |
| CourseProgress.Merge | CourseService.js:387 | merging keeps the entry's lesson id, and data with no keys leaves the entry as it is |
| CourseProgress.CompletesLesson | CourseService.js:390 | completion needs a watch time and a duration, and a positive watch time over a non-negative duration; a positive watch time of at least the duration always completes |
| CourseProgress.Percent | CourseService.js:408 | `(completedLessons.length / totalLessons) * 100` as an exact real: the percentage is never negative, is at most 100 exactly when no more than the total is completed, and is 100 exactly when all are |
| CourseProgress.ShareBounds | CourseService.js:408 | a share of a positive whole is never negative, at most 1 exactly for a part, and 1 exactly for the whole |
| CourseProgress.ApplyLessonEvent | CourseService.js:366-408 | a missing lesson fails with "Lesson not found in course progress"; a success keeps the record's user, course, module count and certificate flag |
| CourseProgress.LessonNotFound | CourseService.js:382-384 | the event fails, with the source's message, iff no module has the lesson |
| CourseProgress.EventUpdatesOnlyThatLesson | CourseService.js:387-397 | on success only the located lesson entry changes; it holds the data merged in and is completed when the threshold is met; ids and certificate flag are kept |
| CourseProgress.CompletionNeverUndone | CourseService.js:390-392 | the threshold rule never clears `completed`; only data that itself carries `completed: false` can |
| CourseProgress.CompletedLessonsAppendOnly | CourseService.js:393-396 | completedLessons gains the lesson exactly when the threshold is met and it was absent, and stays duplicate-free |
| CourseProgress.ModuleFlagsAfterEvent | CourseService.js:400-403 | after every event each module's flag equals "all its lessons are completed" |
| CourseProgress.EntryIdsMeaning | CourseService.js:372-373 | an id is among the progress entries iff some module has that lesson |
| CourseProgress.EntryIdsCount | CourseService.js:406 | a record mirroring the course has exactly `totalLessons` lesson entries |
| CourseProgress.MirrorsAfterEvent | CourseService.js:366-408 | an event keeps the record's modules and lessons mirroring the course |
| CourseProgress.HasLessonAfterEvent | CourseService.js:366-408 | every lesson present before an event is still found after it |
| CourseProgress.EventPreservesInvariant | CourseService.js:366-408 | an event keeps the record invariant: mirrors the course, duplicate-free completed list of course lessons, percentage = 100 × completed / total |
| CourseProgress.CompletedWithinCourse | CourseService.js:406-408 | a record satisfying the invariant has no more completed lessons than the course has lessons |
| CourseProgress.OverallProgressInRange | CourseService.js:406-408 | the invariant implies 0 ≤ overallProgress ≤ 100, with 100 exactly when every lesson id of the course is counted in `completedLessons` |
| CourseProgress.CompletingEvent | CourseService.js:366-408 | an event meeting the threshold for a lesson not yet counted succeeds, appends the lesson, sets the percentage to the new count over the total, keeps every entry's lesson id, leaves every other lesson's entry alone, and leaves each module flag equal to "all its lessons completed" |
| CourseProgress.TwoOfFirstOneOfSecond | CourseService.js:366-408 | on a fresh record of two modules of three lessons with distinct ids, qualifying events on the first two lessons of the first module and the first of the second all succeed and leave three lessons counted, 50 percent, and neither module completed |
| CourseService.MockModule | CourseService.js:169-241 | each mock module has three lessons, carrying the lesson ids of the table in order |
| CourseService.MockCourseDetails | CourseService.js:148-283 | the mock details carry the requested id, two modules of three lessons, six lessons in total, with the lesson ids `lesson-001` to `lesson-006` in order |
| CourseService.MockLesson | CourseService.js:174-239 | each mock lesson carries its id from the table of lesson ids |
| CourseService.MockLessonIdsDistinct | CourseService.js:176-231 | the six mock lesson ids are pairwise distinct |
| CourseService.MockFreshRecord | CourseService.js:318-336 | a fresh record of the mock course has two modules of three entries carrying the course's lesson ids in order |
| CourseService.HalfwayThroughMockCourse | CourseService.js:366-408 | on a fresh record of the mock course, watch events at exactly 90 percent of the duration on lesson-001, lesson-002 and lesson-004 all succeed and leave those three counted, `overallProgress` at 50 and neither module completed |
| CourseService.MockSourceOk | CourseService.js:148-283 | every course id gets details with at least one lesson, so the percentage is defined |
| CourseService.Put | CourseService.js:340-343 | storing a record under (user, course) makes it the stored record there and leaves every other pair as it was |
| CourseService.PutStored | CourseService.js:351-352 | storing the record already stored changes nothing |
| CourseService.PutTwice | CourseService.js:366-414 | a second store at the same pair overrides the first |
| CourseService.PutKeepsStoreOk | CourseService.js:340-343 | storing a record satisfying the invariant keeps the store's invariant |
| CourseService.StoredOrInitialOk | CourseService.js:349-363 | the stored-or-fresh record satisfies the invariant for its course |
| CourseService.EventKeepsStoreOk | CourseService.js:366-414 | storing the result of an event keeps the store's invariant |
| CourseService.FirstLessonUnique | CourseService.js:372-380 | the first occurrence of a lesson is unique |
| CourseService.FindLesson | CourseService.js:371-380 | the nested search with breaks finds the lesson iff some module has it, at the first occurrence |
| CourseService.RefreshFlags | CourseService.js:400-403 | the loop rewriting each module flag yields the refreshed module list |
| CourseService.ApplyAt | CourseService.js:386-408 | merge, threshold, flag pass and percentage in place compute the event's specified result |
| CourseService.CourseService.constructor | CourseService.js:5-9 | both caches start empty over the mock data source |
| CourseService.CourseService.GetCourseDetails | CourseService.js:135-287 | returns the source's details for the id, cached under it; a cache hit returns the cached record and changes nothing |
| CourseService.CourseService.InitializeUserProgress | CourseService.js:314-346 | returns a fresh record for the course and stores it, overwriting any earlier one |
| CourseService.CourseService.EnrollInCourse | CourseService.js:291-311 | returns an active enrolment at zero progress and resets the user's progress record for the course |
| CourseService.CourseService.GetUserProgress | CourseService.js:349-363 | returns the stored record if there is one (nothing changes), otherwise a fresh one that is stored |
| CourseService.CourseService.UpdateLessonProgress | CourseService.js:366-418 | returns the event applied to the stored-or-fresh record and stores it; when the lesson is missing it fails and no stored record changes; the course details are cached on success and whenever no record was stored, and the details cache is untouched when the call fails on a stored record |
| AuthService.HasAccess | AuthService.js:122-139 | access is granted only to a user whose tier is premium, standard or basic, and always to a premium user |
| AuthService.NoUserNoAccess | AuthService.js:123 | no user has no access |
| AuthService.PremiumSeesEverything | AuthService.js:127-129 | the premium tier sees every content type |
| AuthService.StandardAccess | AuthService.js:130-132 | the standard tier sees a content type iff it is not `premium-exclusive` |
| AuthService.BasicAccess | AuthService.js:133-135 | the basic tier sees a content type iff it is `free` or `basic` |
| AuthService.OtherTiersNoAccess | AuthService.js:136-137 | a missing or any other tier sees nothing |
| AuthService.ContentIdIrrelevant | AuthService.js:122-139 | the content id never changes the answer |
| AuthService.TiersNested | AuthService.js:122-139 | what basic sees standard sees, and what standard sees premium sees |
| AuthService.NewMember | AuthService.js:37-45 | the registered user has exactly the seven fields, the given email and name, role member, status active and tier basic |
| AuthService.LoginUser | AuthService.js:72-80 | the logged-in user is the fixed premium member with the given email |
| AuthService.MergeProfile | AuthService.js:107 | the update has every field of the data and every other field of the current user, the data winning |
| AuthService.SessionUsersAccess | AuthService.js:122-139 | a registered user sees exactly free and basic content; a logged-in user sees everything |
| AuthService.UpdatedTierDecides | AuthService.js:107 | after an update that sets the tier, access follows the new tier alone |
| AuthService.AuthSession.constructor | AuthService.js:16-27 | a stored user record becomes the current user; unparsable non-empty stored text is removed; loading ends |
| AuthService.AuthSession.Register | AuthService.js:30-57 | the new member becomes current and is stored under `apocalypseUser` |
| AuthService.AuthSession.Login | AuthService.js:60-92 | the mock premium member becomes current and is stored |
| AuthService.AuthSession.Logout | AuthService.js:95-98 | the stored user is removed and there is no current user |
| AuthService.AuthSession.UpdateProfile | AuthService.js:101-119 | the merged user becomes current and is stored |
| AuthService.AuthSession.HasAccessNow | AuthService.js:122-139 | without a current user nothing is accessible; access needs one of the three tiers |
| PaymentService.Plans | PaymentService.js:6-106 | there are six plans |
| PaymentService.PaymentMethods | PaymentService.js:108-114 | there are five payment methods |
| PaymentService.PlanIdsDistinct | PaymentService.js:6-106 | plan ids are pairwise distinct |
| PaymentService.AnnualPlansPricing | PaymentService.js:62-106 | each annual plan's regular price is twelve monthly prices, and it saves between 16.5 and 17.5 percent on it |
| PaymentService.GetSubscriptionPlan | PaymentService.js:123-125 | nothing iff no plan has the id; otherwise a plan with that id |
| PaymentService.PlanFoundById | PaymentService.js:123-125 | every plan is found by its own id |
| PaymentService.GetPaymentMethods | PaymentService.js:128-130 | exactly the enabled methods, as a subsequence of the table in order |
| PaymentService.AllMethodsOffered | PaymentService.js:108-130 | every method is enabled, so all five are offered in order |
| PaymentService.IsValidCPF | PaymentService.js:241-258 | true iff exactly eleven digits remain after dropping non-digits and not all are the same |
| PaymentService.CPFIgnoresPunctuation | PaymentService.js:243 | a CPF and its digits alone are judged the same |
| PaymentService.ValidatePaymentDetails | PaymentService.js:189-225 | success always carries `true` |
| PaymentService.ValidateAcceptsExactly | PaymentService.js:189-225 | details pass iff the method is listed and enabled, card methods pass all four card checks, and pix/boleto carry a valid CPF |
| PaymentService.UnknownMethodRejected | PaymentService.js:193-196 | a method that is not listed and enabled is rejected first, with its name in the message |
| PaymentService.PaypalNeedsOnlyTheMethod | PaymentService.js:218-224 | PayPal passes whatever else the details hold |
| PaymentService.CardNumberCheckedFirst | PaymentService.js:199-202 | a card with a missing or wrong-length number fails with "Invalid card number" before any other card check |
| PaymentService.CreditCardExample | PaymentService.js:199-215 | a well-formed credit card passes |
| PaymentService.CreditCardWithoutCvv | PaymentService.js:199-215 | the same card without a CVV fails with "Invalid CVV code" |
| PaymentService.ProcessSubscription | PaymentService.js:133-186 | an unknown plan fails; a success reports success and carries the given subscription and invoice ids, the invoice naming the subscription |
| PaymentService.UnknownPlanFailsFirst | PaymentService.js:140-143 | an unknown plan fails before the details are validated |
| PaymentService.SubscriptionRecords | PaymentService.js:140-186 | for a known plan success is exactly acceptable details; a rejection carries the validator's message; the subscription and invoice carry the plan's price and interval |
| PaymentService.LastFourOfCards | PaymentService.js:160-162 | a card subscription records the card number's last four characters, any other method none |
| PaymentService.InvoiceDescription | PaymentService.js:175 | the invoice says `Assinatura <plan> - Mensal` for monthly plans and `- Anual` otherwise |
| PaymentService.UpdateSubscription | PaymentService.js:277-301 | fails iff the plan is unknown, with its id in the message; otherwise returns the plan's id, name, price and interval |
| IntegrationService.InitialIntegrations | IntegrationService.js:6-22 | the three platforms start enabled and disconnected with their mock credentials |
| IntegrationService.Connect | IntegrationService.js:164-165 | only the platform's flag is set, and a truthy credential replaces the stored one |
| IntegrationService.Disconnect | IntegrationService.js:320 | only the platform's flag is cleared |
| IntegrationService.ConnectIdempotent | IntegrationService.js:164-165 | connecting twice equals connecting once |
| IntegrationService.ConnectWithoutTokenKeepsCredential | IntegrationService.js:165 | a later connect without a truthy credential keeps the earlier one |
| IntegrationService.DisconnectAfterConnect | IntegrationService.js:309-320 | disconnecting is idempotent and undoes a connect's flag |
| IntegrationService.DifferentPlatformsCommute | IntegrationService.js:6-320 | operations on different platforms commute |
| IntegrationService.MockPlaylists | IntegrationService.js:59-90 | there are three mock playlists |
| IntegrationService.MockPlaylistDetails | IntegrationService.js:106-153 | the details carry the requested id and five tracks |
| IntegrationService.DisconnectAsWritten | IntegrationService.js:309-326 | as written: a present platform is disconnected; an inherited property name reports success and changes nothing; anything else fails |
| IntegrationService.DisconnectAcceptsInheritedName | IntegrationService.js:310-320 | `constructor` is no platform, yet disconnecting it reports success |
| IntegrationService.IntegrationHub.constructor | IntegrationService.js:5-23 | the initial table |
| IntegrationService.IntegrationHub.ConnectSpotify | IntegrationService.js:26-44 | Spotify becomes connected, nothing else changes, with the success message |
| IntegrationService.IntegrationHub.ConnectTelegram | IntegrationService.js:157-176 | Telegram becomes connected, a truthy bot token replaces the stored one |
| IntegrationService.IntegrationHub.ConnectWhatsApp | IntegrationService.js:224-244 | WhatsApp becomes connected, a truthy API key replaces the stored one |
| IntegrationService.IntegrationHub.GetSpotifyPlaylists | IntegrationService.js:47-91 | fails with "Spotify not connected" iff Spotify is not connected; otherwise the playlists |
| IntegrationService.IntegrationHub.GetSpotifyPlaylistDetails | IntegrationService.js:94-154 | fails iff Spotify is not connected; otherwise the requested playlist |
| IntegrationService.IntegrationHub.GetTelegramChannelInfo | IntegrationService.js:179-200 | fails with "Telegram not connected" iff Telegram is not connected |
| IntegrationService.IntegrationHub.SendTelegramMessage | IntegrationService.js:203-221 | fails iff Telegram is not connected; otherwise the sent-message receipt |
| IntegrationService.IntegrationHub.GetWhatsAppGroupInfo | IntegrationService.js:247-267 | fails with "WhatsApp not connected" iff WhatsApp is not connected |
| IntegrationService.IntegrationHub.SendWhatsAppMessage | IntegrationService.js:270-288 | fails iff WhatsApp is not connected; otherwise the sent-message receipt |
| IntegrationService.IntegrationHub.GetIntegrationStatus | IntegrationService.js:291-306 | exactly each platform's current enabled and connected flags |
| IntegrationService.IntegrationHub.DisconnectIntegration | IntegrationService.js:309-326 | an unknown platform fails and changes nothing; a known one is disconnected alone |
| VideoService.ProviderTablesAgree | VideoService.js:6-38 | the key order lists each provider once, and the base URL table has one entry per provider: the host followed by its key |
| VideoService.AvailableProviders | VideoService.js:102-107 | one entry per provider key, named from the provider table |
| VideoService.ProvidersListedOnce | VideoService.js:102-107 | every provider appears in the list, and no id twice |
| VideoService.QualityOptions | VideoService.js:16-23 | the ladder has six entries |
| VideoService.QualityLadderOrdered | VideoService.js:16-26 | the fixed bitrates strictly decrease, and only the last entry, the default `auto`, is adaptive |
| VideoService.QualityStep | VideoService.js:77-81 | the thresholds pick one of the five fixed ladder entries |
| VideoService.RecommendedQuality | VideoService.js:71-82 | the recommendation is the value of the fixed ladder entry the thresholds pick |
| VideoService.RecommendedQualityMonotone | VideoService.js:77-81 | a faster connection never gets a lower quality or bitrate |
| VideoService.RecommendedBitrateFits | VideoService.js:77-90 | from the estimator's lowest speed of 1000 kbps up, the recommended bitrate never exceeds the speed |
| VideoService.StreamUrl | VideoService.js:30-41 | a known provider's URL starts with the streaming host; an unknown provider's starts with `undefined` |
| VideoService.SplitSlash | VideoService.js:40 | splitting on `/` yields at least one segment |
| VideoService.SplitSlashSingle | VideoService.js:40 | a string without `/` is one segment |
| VideoService.SplitSlashJoin | VideoService.js:40 | joining with `/` then splitting recovers the first part |
| VideoService.SplitSlashFour | VideoService.js:40 | four `/`-free parts joined by `/` split back into those parts |
| VideoService.ParseStreamUrl | VideoService.js:34-40 | a URL that parses names a known provider |
| VideoService.StreamUrlShape | VideoService.js:34-40 | a known provider's URL is the host, provider, video id, quality and `stream.m3u8` joined by `/` |
| VideoService.StreamUrlRoundTrip | VideoService.js:30-41 | a URL built for a known provider reads back as that provider, video id and quality |
| VideoService.StreamUrlEnds | VideoService.js:40 | every URL ends with the quality and `/stream.m3u8` |
| VideoService.SetProviderAsWritten | VideoService.js:110-116 | as written: a provider key or an inherited property name is accepted and becomes current; anything else changes nothing |
| VideoService.SetProviderAcceptsInheritedName | VideoService.js:110-116 | `constructor` is no provider, yet it is accepted as the current provider |
| VideoService.VideoService.constructor | VideoService.js:12-13 | the current provider starts as `aws`, a known provider |
| VideoService.VideoService.SetProvider | VideoService.js:110-116 | returns true and switches iff the id is a provider key; otherwise nothing changes; the provider stays known |
| VideoService.VideoService.GetVideoStreamUrl | VideoService.js:30-41 | omitted quality is `auto` and omitted provider the current one; the URL reads back as the provider used (the given known one, or else the current one), the video id and the quality; a given provider without a base URL yields a URL starting `undefined` |
| VideoService.VideoService.GetQualityOptions | VideoService.js:119-121 | the ladder: five fixed bitrates and the adaptive default last |

## Left out

- Simulated network delays are dropped; every operation is synchronous.
- Identifiers and timestamps from `Date.now()` and `new Date()` are parameters or dropped:
  - the `user_` id and `memberSince` of a registration are parameters;
  - the subscription and invoice ids are parameters;
  - start, end, paid, created, access, enrolment and update dates are dropped;
  - `calculateEndDate` is not modelled (JavaScript date rollover).
- EnrollInCourse: the source starts `initializeUserProgress` without awaiting it. The model completes the initialisation before returning; the race is not modelled.
- `getCourseResources` is not modelled: its body is cut off in the source.
- `getSubscriptionPlans` is not modelled separately: it returns the plan table, which is `Plans`.
- `cancelSubscription`, `getUserSubscription`, `getUserPaymentHistory` and `generateInvoicePDF` are not modelled: they return constant mock records stamped with the clock.
- `estimateConnectionSpeed` is not modelled; the speed is a parameter of `RecommendedQuality` (the estimator draws it at random).
- `trackVideoAnalytics`, `getVideoMetadata` and `getThumbnailAtTime` are not modelled: console output and constant mock data.
- AuthSession: the localStorage JSON encoding is not modelled; the store holds parsed records or unparsable text.
- The React context, hooks and render machinery is not modelled. Deferred state updates are taken to be immediate.
- Display-only fields are not modelled:
  - long descriptions, reviews, requirements, objectives and price labels of the course details;
  - plan descriptions, feature and limitation lists;
  - connect receipts' account and bot info;
  - playlist cover images and embed codes;
  - the course-details description and instructor bio;
  - the playlist description;
  - the playlist details' cover image, Spotify URL and embed code, and the tracks' URLs;
  - the channel and group descriptions and creation dates.
- Lower: JavaScript's `toLowerCase` is modelled for ASCII and the Latin-1 capitals only. Other scripts are left unchanged.
- String lengths count characters, not UTF-16 code units.
- Prices are integer cents rather than floating-point reais.
- Percentages are exact reals rather than floating-point numbers.
- ApplyLessonEvent: the event data holds only the five lesson keys (`watchTime`, `lastPosition`, `quizResults`, `duration`, `completed`). `Object.assign` in the source copies any key. A `lessonId` key would rename the entry, and later events could then append ids that are not lessons of the course to `completedLessons`, so that list could outgrow the lesson count and `overallProgress` pass 100. ProgressInvariant, EventPreservesInvariant, CompletedWithinCourse and OverallProgressInRange hold only for the five-key data. A missing `data` object, which throws at the completion test, is not modelled either.
- Input types are narrower than JavaScript's. `Filters.featured` is a boolean or absent, while the source tests any value for truthiness. The payment details' fields are strings or absent, so `null` and `undefined` are one case and non-string values are not modelled.
- ApplyAt: the model returns a new record that the service stores. In the source the lesson entry is the cached object, mutated through an alias. The resulting state is the same, and the aliasing is not modelled.
- GetCourseDetails, GetUserProgress: a cache lookup is a test for an own key. An inherited property name such as `constructor` is treated as absent (the source would return the inherited member).
- StreamUrl: an inherited property name as provider is interpolated as `undefined` (the source would print the inherited member).
- Not modelled: the presentation components, the asset and PDF generation scripts, and the site configuration.

## Findings

| source | as written | input that shows it | evidently intended | confidence | as-written member | corrected member |
|---|---|---|---|---|---|---|
| VideoService.js:110-116 | `setProvider` accepts any id for which `videoProviders[id]` is truthy, and inherited members of every object are | `setProvider("constructor")` returns true and the current provider becomes `constructor`, which has no base URL | only `aws`, `gcp` and `azure` are accepted, so the current provider is always known | not executed | VideoService.SetProviderAsWritten | VideoService.VideoService.SetProvider |
| IntegrationService.js:310-320 | `disconnectIntegration` checks `integrations[platform]` for truthiness, so inherited names pass the guard | `disconnectIntegration("constructor")` reports "constructor disconnected successfully" and no platform changes (`__proto__` would write `connected` onto the shared object prototype) | an unknown platform fails with "Invalid platform" | not executed | IntegrationService.DisconnectAsWritten | IntegrationService.IntegrationHub.DisconnectIntegration |
