# p2p-giving: donation settlement, gamification and creation flows in Dafny

This project models the server-side core of p2p-giving. p2p-giving is a Malaysian peer-to-peer fundraising platform written in
Next.js with Prisma and Stripe. The model covers:

- **Stripe webhook** (`app/api/webhooks/stripe/route.ts`). POST checks the signature header and dispatches a verified
  event.
  - A succeeded payment settles its donation exactly once. The donation becomes COMPLETED. Its amount is credited to
    the campaign, the campaign's team and the creator's team membership. The creator's fundraiser stats are upserted
    and their average is recomputed. The donor earns points and badges, and the leaderboards are rebuilt.
  - A failed or canceled payment marks the donation FAILED, whatever its current status.
- **Gamification** (`lib/gamification.ts`). This covers the point formulas, the level formula and the badge
  evaluator. It also covers `awardPoints` and the ALL_TIME leaderboard rebuild.
- **Leaderboards endpoint** (`app/api/leaderboards/route.ts`). It returns a cached snapshot for five minutes and
  otherwise recomputes and upserts it. This includes the three ranking pipelines.
- **Campaign and team endpoints** (`app/api/campaigns/route.ts`, `app/api/teams/route.ts`). GET builds the filter
  and paginates. POST covers authentication, validation, the unique-slug loop and creation. Creating a campaign also
  upserts stats and awards 5 points. Creating a team also adds a LEADER membership.
- **Helpers and validators** (`lib/utils.ts`, `lib/validations.ts`). These are the slug normaliser, the progress
  percentage, the phone formatter and the zod schemas written as predicates.

The database is the class `Schema.Store`, with one `map` field per table. `State()` packs the fields into the value
`Schema.Db`.

Every handler is a method with `modifies db`. Its `ensures` ties the new state (and the reply status) to a
specification function of the old state. For example, `Webhook.Post` ensures
`(db.State(), status) == PostSpec(old(db.State()), …)`. What the source promises is then proved about those
functions as lemmas:

- idempotence of settlement;
- conservation of raised amounts;
- the team credit holding iff the campaign has a team;
- the stats upsert and its average;
- soundness and completeness of the badge evaluator, and that a second run finds nothing;
- ranking order and caps;
- slug freshness and minimality;
- pagination coverage;
- the single LEADER membership.

Modules:

| file | module | models |
|---|---|---|
| common.dfy | Common | optional strings, JavaScript string lengths, case-insensitive search, decimal rendering of ids, sums, table enumeration, filter, insertion sort |
| utils.dfy | Utils | `lib/utils.ts` |
| validations.dfy | Validations | `lib/validations.ts` |
| gamification.dfy | Gamification | the pure formulas and badge rules of `lib/gamification.ts` |
| schema.dfy | Schema | the rows, the store class and the relations `include` loads |
| ranking.dfy | Ranking | the ranking pipelines of the leaderboards route and of `updateLeaderboards` |
| gamification_store.dfy | GamificationStore | `awardPoints`, `checkBadgeUnlocks`, `updateLeaderboards` |
| leaderboards.dfy | Leaderboards | `GET /api/leaderboards` |
| webhook.dfy | Webhook | the Stripe webhook |
| slugs.dfy | Slugs | the unique-slug loop shared by both POST handlers |
| paging.dfy | Paging | page and limit parameters, skip/take, totalPages |
| campaigns.dfy | Campaigns | `GET` and `POST /api/campaigns` |
| teams.dfy | Teams | `GET` and `POST /api/teams` |

Modelling conventions:

- **Identifiers** are `nat` (`Id`). A table's storage order, which is also creation order, is ascending identifier
  order. `Db.nextId` is above every identifier in use.
- **Money** (Prisma `Decimal`, JavaScript `number`) is `real`. Counts and points are `nat`.
- **Time** is an `int` parameter `now` in milliseconds.
- **Strings** are sequences of Unicode characters. Their JavaScript `.length`, which zod's length checks use, is
  `Common.Utf16Length`: one code unit per character, two for a character outside the Basic Multilingual Plane.
- **Signature verification** is not modelled. The webhook takes the verified event as an `Option<Event>`; `None`
  stands for the exception `constructWebhookEvent` throws.

## Model

| member | source | states |
|---|---|---|
| Common.TopN | app/api/leaderboards/route.ts:83-90 | `orderBy: desc` with `take: n`: non-increasing, exactly min(|s|, n) elements, all drawn from the input, and the whole input when it has at most n |
| Common.TopNExcluded | app/api/leaderboards/route.ts:83-90 | an element left out means n were taken, and each taken element's key is at least the left-out one's |
| Common.Utf16LengthBasic | lib/validations.ts:5 | zod's `.min`/`.max` count `.length`, UTF-16 code units; without astral characters that is the number of characters |
| Common.Utf16LengthAppend | lib/validations.ts:5 | code-unit lengths add up over concatenation |
| Utils.CollapseRuns | lib/utils.ts:23 | every output character is in [a-z0-9-] and no two dashes are adjacent: each run of other characters became one dash |
| Utils.TrimDashesIsSlug | lib/utils.ts:24 | dropping a leading and a trailing dash from dash-separated slug characters leaves no dash at either end |
| Utils.GenerateSlugIsSlug | lib/utils.ts:20-25 | generateSlug's output has only [a-z0-9-] characters, never `--`, and no dash at either end |
| Utils.GenerateSlugIdempotent | lib/utils.ts:20-25 | generateSlug(generateSlug(t)) == generateSlug(t) |
| Utils.Round | lib/utils.ts:29 | Math.round: the integer within half of x, halves rounded up |
| Utils.CalculateProgress | lib/utils.ts:27-30 | 0 when goal is 0; otherwise exactly the rounded percentage raised / goal * 100, capped at 100; hence never above 100, 100 when raised >= goal > 0, non-negative for non-negative inputs |
| Utils.FindPhone | lib/utils.ts:17 | finds the leftmost position where `+60` and nine digits start, or reports that there is none |
| Utils.FormatMalaysianPhone | lib/utils.ts:15-18 | a string with no `+60ddddddddd` match comes back unchanged |
| Utils.FormatMalaysianPhoneRewritesLeftmost | lib/utils.ts:15-18 | only the leftmost match is rewritten; the text before it and after its 12 characters is kept |
| Utils.FormatMalaysianPhoneExample | lib/utils.ts:16 | `+60123456789` becomes `+60 12-345 6789` |
| Validations.ParsePhone | lib/validations.ts:98-100 | accepts exactly `+60` followed by 9 or 10 digits, and returns the input |
| Validations.AcceptedPhoneFormats | lib/validations.ts:98-100 | every accepted phone is reformatted to `+60 dd-ddd dddd` plus its remaining digit |
| Validations.ParseRegister | lib/validations.ts:4-9 | accepted iff the name has 2 or more UTF-16 code units, the password 8 or more, and a present phone is valid |
| Validations.ParseCreateCampaign | lib/validations.ts:17-46 | accepted iff the title has 5..100 UTF-16 code units, the description 20 or more, the goal is in (0, 10000000], the category is one of the twelve and min/max donations are positive; the defaults are MYR and allowRecurring/allowAnonymous true |
| Validations.ParseUpdateCampaign | lib/validations.ts:48 | each present field is checked as on creation, lengths in UTF-16 code units; absent fields are not required |
| Validations.UpdateCampaignAcceptsAnySubset | lib/validations.ts:48 | any subset of the fields of a valid campaign is a valid update |
| Validations.UpdateCampaignEmptyAccepted | lib/validations.ts:48 | the empty update is accepted and gets no currency default |
| Validations.ParseCreateDonation | lib/validations.ts:57-66 | accepted iff amount >= 1, a present message has at most 500 UTF-16 code units and a present frequency is monthly or weekly; the defaults are MYR and isAnonymous/isRecurring false |
| Validations.ParseCreateTeam | lib/validations.ts:69-76 | accepted iff the name has 3..50 UTF-16 code units, a present description has 10 or more, the goal is positive and a present maxMembers is positive; currency defaults to MYR |
| Validations.ParseUpdateTeam | lib/validations.ts:78 | each present field is checked as on creation, lengths in UTF-16 code units |
| Validations.UpdateTeamAcceptsAnySubset | lib/validations.ts:78 | any subset of the fields of a valid team is a valid update |
| Validations.ParseCreateChallenge | lib/validations.ts:81-89 | accepted iff the name has 3 or more UTF-16 code units, the description 10 or more, the type is one of the four and a present `rules` is a plain object (not an array, string, number, boolean or null) |
| Validations.TitleLengthCountsCodeUnits | lib/validations.ts:18 | lengths are JavaScript's: a four-character title holding one astral character has five code units and passes the 5 minimum |
| Validations.ParseTrackShare | lib/validations.ts:92-95 | accepted iff the platform is one of the six |
| Gamification.DonationPoints | lib/gamification.ts:5-8 | floor(amount / 10), non-negative for non-negative amounts |
| Gamification.DonationPointsMonotone | lib/gamification.ts:5-8 | donation points never decrease as the amount grows |
| Gamification.CampaignPoints | lib/gamification.ts:10-15 | non-finite iff the goal is 0; otherwise exactly 5 + floor(raised / goal * 20), so 5 at nothing raised, 25 at the goal, between 5 and 25 in between |
| Gamification.CampaignPointsUncapped | lib/gamification.ts:10-15 | there is no cap: 300 raised on a goal of 100 gives 65 |
| Gamification.CampaignPointsMonotone | lib/gamification.ts:10-15 | campaign points never decrease as the raised amount grows |
| Gamification.SharePoints | lib/gamification.ts:17-28 | INSTAGRAM 3, EMAIL 1, the other four platforms 2, any other string 1; always in {1, 2, 3} |
| Gamification.SharePlatformsAreTableKeys | lib/gamification.ts:19-26 | the points table's keys are the platforms trackShareSchema admits |
| Gamification.SharePointsAsWritten | lib/gamification.ts:27 | the object lookup agrees with the table for every key that is not an inherited property |
| Gamification.SharePointsAsWrittenConstructor | lib/gamification.ts:27 | the platform `constructor` yields a non-number as written; the corrected SharePoints gives 1 |
| Gamification.ISqrt | lib/gamification.ts:37 | the integer square root r with r*r <= n < (r+1)*(r+1) |
| Gamification.Level | lib/gamification.ts:31-38 | the level n >= 1 is the one with 100(n-1)^2 <= points < 100n^2 |
| Gamification.LevelCharacterisation | lib/gamification.ts:31-38 | Level(p) == n iff 100(n-1)^2 <= p < 100n^2 |
| Gamification.LevelMonotone | lib/gamification.ts:31-38 | the level never decreases as points grow |
| Gamification.LevelExamples | lib/gamification.ts:33-36 | 0-99 gives level 1, 100-399 level 2, 400-899 level 3 |
| Gamification.NewBadges | lib/gamification.ts:72-106 | no more badges than the catalog holds |
| Gamification.NewBadgesExact | lib/gamification.ts:72-106 | the result holds exactly the catalog badges not owned whose requirement holds |
| Gamification.NewBadgesNone | lib/gamification.ts:72-106 | when no badge unlocks, nothing is returned |
| Gamification.BadgeIds | lib/gamification.ts:125 | the ids of the badges, in order |
| Gamification.NewBadgesSound | lib/gamification.ts:72-106 | each returned badge is in the catalog, not owned, and its requirement holds; each such badge is returned; the ids are distinct |
| Gamification.NewBadgeIds | lib/gamification.ts:72-106 | a catalog badge's id is returned iff it unlocks; no id is returned twice |
| Gamification.NewBadgesSettled | lib/gamification.ts:74 | once the returned badges are owned, a second evaluation with the same facts returns nothing |
| Gamification.GenerousGiverScenario | lib/gamification.ts:79-106 | a single donation of 1000 unlocks Generous Giver (single_donation >= 1000, reward 50) and nothing else when First Donation is owned |
| Schema.CompletedAmountsOf | lib/gamification.ts:50-52 | a user has a COMPLETED donation iff the list of their COMPLETED amounts is non-empty |
| Schema.OwnedBadgesMembers | lib/gamification.ts:67 | a badge id is owned iff the user has a UserBadge row for it |
| GamificationStore.WithPoints | lib/gamification.ts:133-150 | unknown user: nothing changes; otherwise totalPoints rises by exactly the points, level becomes calculateLevel of the new total, and no other row changes |
| GamificationStore.WithPointsRaisesLevel | lib/gamification.ts:133-150 | the new level is at least the level of the old total |
| GamificationStore.AwardPoints | lib/gamification.ts:133-150 | the store becomes WithPoints of the old store |
| GamificationStore.AwardDonationPoints | lib/gamification.ts:152-155 | awards calculateDonationPoints(amount) |
| GamificationStore.AwardSharePoints | lib/gamification.ts:157-160 | awards calculateSharePoints(platform) |
| GamificationStore.UnlockRows | lib/gamification.ts:110-115 | one UserBadge row (user, badge) per awarded badge, in order |
| GamificationStore.AwardAllEffect | lib/gamification.ts:108-126 | awarding appends one UserBadge row per badge and raises totalPoints by the sum of the rewards, with the level unchanged and nothing else written |
| GamificationStore.AwardBadge | lib/gamification.ts:108-126 | one badge's UserBadge row and points increment |
| GamificationStore.CheckBadgeUnlocks | lib/gamification.ts:46-130 | the store and the returned ids are BadgeUnlocks of the old store |
| GamificationStore.AwardUnlocked | lib/gamification.ts:72-127 | the loop awards exactly NewBadges, in catalog order, and returns their ids |
| GamificationStore.BadgeUnlocksUnknownUser | lib/gamification.ts:61 | an unknown user yields [] and no change |
| GamificationStore.BadgeUnlocksSound | lib/gamification.ts:72-106 | a catalog badge is returned iff it is not owned and its requirement holds on the user's facts; no id twice |
| GamificationStore.BadgeUnlocksWrites | lib/gamification.ts:108-126 | exactly one UserBadge row per returned id; totalPoints rises by the rewards; the level is not recomputed |
| GamificationStore.OwnedBadgesAppend | lib/gamification.ts:67 | after the awards, the user owns the old badges followed by the awarded ones |
| GamificationStore.BadgeUnlocksSettled | lib/gamification.ts:74 | a second run right after the first returns [] and changes nothing |
| GamificationStore.UpdateLeaderboards | lib/gamification.ts:163-313 | the store becomes WithLeaderboards of the old store |
| GamificationStore.RefreshedRows | lib/gamification.ts:163-313 | the three ALL_TIME keys hold the new lists at `now`; every other snapshot is unchanged |
| GamificationStore.WithLeaderboardsFrame | lib/gamification.ts:163-313 | only the leaderboard table changes; the three ALL_TIME snapshots are stamped `now`; other snapshots are kept |
| GamificationStore.WithLeaderboardsRanked | lib/gamification.ts:163-313 | each of the three stored lists is ranked 1..n in non-increasing amount order |
| GamificationStore.FundraiserTotalsRanked | lib/gamification.ts:165-209 | the fundraisers list is ranked |
| GamificationStore.TopDonorsRanked | lib/gamification.ts:212-263 | the donors list is ranked |
| GamificationStore.ActiveTeamsRanked | lib/gamification.ts:266-312 | the teams list is ranked |
| Ranking.FundraiserEntries | app/api/leaderboards/route.ts:102-110 | entry k has rank k+1 and copies the k-th row's figures |
| Ranking.TopFundraisersSound | app/api/leaderboards/route.ts:82-111 | exactly min(number of stats rows with totalRaised > 0, 100) entries, ranks 1..n, only stats rows with totalRaised > 0 whose figures they copy, non-increasing amounts |
| Ranking.TopFundraisersComplete | app/api/leaderboards/route.ts:82-111 | every user who raised something is listed, or the list holds 100 entries whose amounts are all at least theirs: it is the top 100 |
| Ranking.DonorTotals | app/api/leaderboards/route.ts:134-141 | each fetched donor's sum and count of COMPLETED donations |
| Ranking.DonorEntries | app/api/leaderboards/route.ts:144-147 | entry k has rank k+1 and the k-th total |
| Ranking.TopDonorsSound | app/api/leaderboards/route.ts:113-150 | at most 100 entries, ranks 1..n, amounts the sum and counts the number (>= 1) of the user's COMPLETED donations, each user one of the first 100 fetched, non-increasing amounts |
| Ranking.TopDonorsComplete | app/api/leaderboards/route.ts:113-150 | when at most 100 users have a COMPLETED donation, every one of them is listed |
| Ranking.CandidateListed | app/api/leaderboards/route.ts:114-115 | every one of the first 100 fetched donors is listed: `take` runs before the sort |
| Ranking.TeamEntries | app/api/leaderboards/route.ts:173-182 | entry k has rank k+1 and copies the k-th team's figures |
| Ranking.TopTeamsSound | app/api/leaderboards/route.ts:152-183 | exactly min(number of ACTIVE teams with raisedAmount > 0, 100) entries, ranks 1..n, only ACTIVE teams with raisedAmount > 0, non-increasing amounts |
| Ranking.TopTeamsComplete | app/api/leaderboards/route.ts:152-183 | every ACTIVE team that raised something is listed, or the list holds 100 entries whose amounts are all at least its own |
| Ranking.FundraiserTotalEntries | lib/gamification.ts:190-197 | entry k has rank k+1 and copies the k-th row's figures |
| Ranking.FundraiserTotalsSound | lib/gamification.ts:165-209 | exactly min(number of stats rows, 100) entries, ranks 1..n, stats rows whose figures they copy, non-increasing amounts |
| Ranking.FundraiserTotalsComplete | lib/gamification.ts:165-209 | every stats row is listed, or the list holds 100 entries whose amounts are all at least its totalRaised |
| Ranking.ActiveTeamsSound | lib/gamification.ts:266-312 | exactly min(number of ACTIVE teams, 100) entries, ranks 1..n, only ACTIVE teams, non-increasing amounts |
| Ranking.ActiveTeamsComplete | lib/gamification.ts:266-312 | every ACTIVE team is listed, or the list holds 100 entries whose amounts are all at least its own |
| Leaderboards.TypeParam | app/api/leaderboards/route.ts:8 | a missing or empty type is TOP_FUNDRAISERS |
| Leaderboards.PeriodParam | app/api/leaderboards/route.ts:9 | a missing or empty period is ALL_TIME |
| Leaderboards.ParseBoard | app/api/leaderboards/route.ts:33-51 | each of the three type names selects its board, and nothing else does |
| Leaderboards.Get | app/api/leaderboards/route.ts:5-80 | the store and the reply are GetSpec of the old store |
| Leaderboards.GetDefaults | app/api/leaderboards/route.ts:8-9 | without parameters the request is TOP_FUNDRAISERS / ALL_TIME |
| Leaderboards.GetUnknownType | app/api/leaderboards/route.ts:46-51 | an unknown type gets 400 and writes nothing |
| Leaderboards.GetCacheHit | app/api/leaderboards/route.ts:23-28 | a snapshot younger than 300000 ms is returned unchanged and nothing is written |
| Leaderboards.GetRefresh | app/api/leaderboards/route.ts:30-72 | otherwise the list is recomputed and stored under (type, period) as the one snapshot for that key; other snapshots and tables are unchanged |
| Leaderboards.GetThenCached | app/api/leaderboards/route.ts:12-72 | a repeated request at the same time is served from the cache with the same reply |
| Leaderboards.ComputeRanked | app/api/leaderboards/route.ts:82-183 | every computed list is ranked |
| Webhook.ValidSettleable | app/api/webhooks/stripe/route.ts:62-95 | in a consistent store, a known donation's campaign (and its team) exist |
| Webhook.Credit | app/api/webhooks/stripe/route.ts:89-95 | raisedAmount rises by the amount and donationCount by 1; nothing else in the campaign changes |
| Webhook.UpsertStats | app/api/webhooks/stripe/route.ts:121-135 | the creator has a stats row afterwards, with totalDonations >= 1 |
| Webhook.Post | app/api/webhooks/stripe/route.ts:10-51 | the store and the status are PostSpec of the old store |
| Webhook.HandlePaymentSuccess | app/api/webhooks/stripe/route.ts:53-166 | the store becomes AfterSuccess of the old store |
| Webhook.CreditDonation | app/api/webhooks/stripe/route.ts:81-148 | the ledger writes of one settlement (Credited) |
| Webhook.CreditTeamRows | app/api/webhooks/stripe/route.ts:98-118 | the team's raisedAmount and the creator's membership, if any, rise by the amount |
| Webhook.UpdateStats | app/api/webhooks/stripe/route.ts:121-148 | the upsert, then the average recomputed from the row read back |
| Webhook.HandlePaymentFailure | app/api/webhooks/stripe/route.ts:168-184 | succeeds iff AfterFailure is defined and then writes it; a throw leaves the store unchanged |
| Webhook.HandlePaymentCanceled | app/api/webhooks/stripe/route.ts:186-202 | the same write as a failure |
| Webhook.PostWithoutSignature | app/api/webhooks/stripe/route.ts:15-20 | no signature: 400 and nothing changes |
| Webhook.PostUnhandledKind | app/api/webhooks/stripe/route.ts:39-43 | an unhandled event type: 200 and nothing changes |
| Webhook.PostFailureUnknownDonation | app/api/webhooks/stripe/route.ts:44-50 | a failed or canceled event naming no donation: 500 and nothing changes |
| Webhook.SuccessNoop | app/api/webhooks/stripe/route.ts:56-78 | a missing or unknown donationId, or a COMPLETED donation, changes nothing |
| Webhook.FailureOverwrites | app/api/webhooks/stripe/route.ts:176-181 | the donation becomes FAILED whatever its status, and nothing else changes |
| Webhook.RewardedFrame | app/api/webhooks/stripe/route.ts:151-160 | points and badges only for a set donorId; other users unchanged; the donor gains at least the donation points |
| Webhook.SettleFrame | app/api/webhooks/stripe/route.ts:150-163 | after the ledger writes, rewarding and refreshing change only users, badges and leaderboards |
| Webhook.CreditedCredits | app/api/webhooks/stripe/route.ts:81-95 | the donation becomes COMPLETED and its campaign is credited; users are untouched by the ledger writes |
| Webhook.SettleCredits | app/api/webhooks/stripe/route.ts:81-95 | the donation becomes COMPLETED; its campaign's raisedAmount rises by exactly the amount and donationCount by 1; other campaigns are unchanged |
| Webhook.CreditedTeam | app/api/webhooks/stripe/route.ts:98-118 | a team's raisedAmount rises by the amount iff it is the campaign's team; otherwise teams and memberships are untouched |
| Webhook.SettleTeam | app/api/webhooks/stripe/route.ts:98-118 | a team's raisedAmount rises iff it is the campaign's team; the creator's membership rises by the amount; no other row changes |
| Webhook.CreditedStats | app/api/webhooks/stripe/route.ts:121-148 | missing stats are created with totalRaised = amount and totalDonations = 1; present stats are incremented; averageDonation = totalRaised / totalDonations with totalDonations >= 1 |
| Webhook.SettleStats | app/api/webhooks/stripe/route.ts:121-148 | the same after the whole settlement; other users' stats are unchanged |
| Webhook.SettleRewardsDonorOnly | app/api/webhooks/stripe/route.ts:151-160 | without a donorId no user or badge changes; otherwise only the donor's row changes, gaining at least the donation points |
| Webhook.SettleRefreshesLeaderboards | app/api/webhooks/stripe/route.ts:163 | the three ALL_TIME snapshots are rebuilt at `now` and ranked |
| Webhook.SameLinksValid | app/api/webhooks/stripe/route.ts:81-135 | a store with the same links as a consistent one is consistent |
| Webhook.CreditedLinks | app/api/webhooks/stripe/route.ts:81-148 | the ledger writes keep every link |
| Webhook.SameLinksFrame | app/api/webhooks/stripe/route.ts:150-163 | the rewarding and refreshing steps keep the links |
| Webhook.SettleValid | app/api/webhooks/stripe/route.ts:53-166 | a settlement keeps the store consistent |
| Webhook.SuccessStep | app/api/webhooks/stripe/route.ts:75-95 | the first success for a donation COMPLETES it and credits exactly its campaign, keeping the store consistent |
| Webhook.AfterSuccessValid | app/api/webhooks/stripe/route.ts:53-166 | every success event keeps the store consistent |
| Webhook.SuccessIdempotent | app/api/webhooks/stripe/route.ts:75-78 | delivering the same success twice leaves the state of delivering it once |
| Webhook.FailureValid | app/api/webhooks/stripe/route.ts:168-184 | a failure on a known donation is defined and keeps the store consistent |
| Webhook.Deliver | app/api/webhooks/stripe/route.ts:53-166 | a sequence of success events keeps the store consistent |
| Webhook.Amounts | app/api/webhooks/stripe/route.ts:92 | the amounts of the delivered donations, in order |
| Webhook.DeliverKeepsDonations | app/api/webhooks/stripe/route.ts:81-86 | deliveries change only donation statuses, and only of the delivered donations |
| Webhook.DeliverConserves | app/api/webhooks/stripe/route.ts:89-95 | after N distinct pending donations to one campaign succeed, raisedAmount = initial + their sum and donationCount = initial + N |
| Webhook.SucceedFailSucceedCountsTwice | app/api/webhooks/stripe/route.ts:75-78 | success, failure, success credits the campaign twice, because FAILED overwrites COMPLETED and only COMPLETED is skipped |
| Slugs.FreeFrom | app/api/campaigns/route.ts:110-118 | the first free step from k on; every earlier step is taken |
| Slugs.UniqueSlug | app/api/campaigns/route.ts:110-118 | the loop returns FreeSlug: it terminates, because no more slugs can be taken than exist |
| Slugs.FreeSlugSound | app/api/campaigns/route.ts:110-118 | the slug is unused; it is the base when that is free, otherwise `base-k` for the smallest free k >= 1 |
| Slugs.TriedInjective | app/api/campaigns/route.ts:112-116 | the loop never looks up the same slug twice |
| Paging.IntParam | app/api/campaigns/route.ts:17-18 | parseInt of a present parameter, or the default |
| Paging.Ceil | app/api/campaigns/route.ts:85 | Math.ceil: the least integer not below x |
| Paging.TotalPages | app/api/campaigns/route.ts:85 | undefined (NaN/Infinity) iff limit is 0; otherwise ceil(total / limit) |
| Paging.Window | app/api/campaigns/route.ts:73-74 | skip/take: none for a negative skip; for take >= 0 the rows from skip on, at most take of them, as many as remain |
| Paging.PaginateDefaults | app/api/campaigns/route.ts:17-19 | without parameters: page 1, limit 12, the first 12 rows |
| Paging.PaginatePageBelowOne | app/api/campaigns/route.ts:17-19 | a page below 1 gives a negative skip and so a 500 |
| Paging.CeilPages | app/api/campaigns/route.ts:85 | totalPages c satisfies (c-1)*limit < total <= c*limit |
| Paging.PaginateFrom | app/api/campaigns/route.ts:46-87 | a page only holds matched rows |
| Paging.PaginateKeepsOrder | app/api/teams/route.ts:57-74 | a page of a list sorted in non-increasing order is itself so sorted |
| Paging.OnSomePage | app/api/campaigns/route.ts:46-87 | matched row i is on page i / limit + 1 |
| Paging.PagesPartition | app/api/campaigns/route.ts:79-87 | matched row i is item i mod limit of that page, which is within totalPages, and total counts every matched row |
| Paging.PagesBeyondEmpty | app/api/campaigns/route.ts:79-87 | a page past totalPages is empty |
| Campaigns.BuildWhere | app/api/campaigns/route.ts:21-44 | a campaign matches the built where iff it satisfies every supplied filter; each key is set iff its parameter is present |
| Campaigns.EmptyQueryAdmitsAll | app/api/campaigns/route.ts:21-44 | no parameters, no constraint |
| Campaigns.List | app/api/campaigns/route.ts:9-95 | the reply is ListSpec of the store: the admitted campaigns, newest first, paginated |
| Campaigns.AdmittedSound | app/api/campaigns/route.ts:46-77 | every admitted row is a stored campaign satisfying the filters |
| Campaigns.ListSound | app/api/campaigns/route.ts:46-87 | every listed row is a stored campaign satisfying the filters |
| Campaigns.AdmittedHas | app/api/campaigns/route.ts:46-77 | every stored campaign satisfying the filters is admitted |
| Campaigns.ListComplete | app/api/campaigns/route.ts:46-87 | for a positive limit, every stored campaign satisfying the filters is on some page |
| Campaigns.CountCampaign | app/api/campaigns/route.ts:140-153 | missing stats: totalCampaigns 1 and activeCampaigns 1 iff ACTIVE; present: totalCampaigns + 1, activeCampaigns + 1 iff ACTIVE |
| Campaigns.Insert | app/api/campaigns/route.ts:121-161 | the store becomes Inserted of the old store |
| Campaigns.Create | app/api/campaigns/route.ts:98-177 | the store and the status are CreateSpec of the old store |
| Campaigns.CreateUnauthorized | app/api/campaigns/route.ts:102-104 | no session: 401 and nothing changes |
| Campaigns.CreateInvalid | app/api/campaigns/route.ts:106-107 | an invalid body: 400 and nothing changes |
| Campaigns.CreateDangling | app/api/campaigns/route.ts:121-137 | an unknown creator or team: 500 and nothing changes |
| Campaigns.CreateInvalidDate | app/api/campaigns/route.ts:126 | a non-empty endDate that `new Date` cannot parse: 500 and nothing changes |
| Campaigns.CreateInserts | app/api/campaigns/route.ts:110-137 | with a parseable or empty endDate, 201; one new campaign with the parsed fields, endDate null when absent or empty, the creator, a fresh slug (base or smallest free `base-k`), zero raised; other campaigns unchanged |
| Campaigns.CreateCountsCampaign | app/api/campaigns/route.ts:140-153 | the stats upsert: created as 1 / (1 iff ACTIVE), or incremented by 1 / (1 iff ACTIVE) |
| Campaigns.CreateAwardsFive | app/api/campaigns/route.ts:156-161 | the creator's totalPoints rises by exactly 5; the level is untouched |
| Campaigns.CreateValid | app/api/campaigns/route.ts:98-177 | creation keeps the store consistent |
| Campaigns.CreateKeepsSlugsDistinct | app/api/campaigns/route.ts:110-137 | campaign slugs stay pairwise distinct |
| Teams.StatusParam | app/api/teams/route.ts:12 | status defaults to ACTIVE |
| Teams.BuildWhere | app/api/teams/route.ts:18-25 | a team matches iff its status equals the parameter and, when searching, the term is a case-insensitive substring of the name or the description |
| Teams.List | app/api/teams/route.ts:9-82 | the reply is ListSpec of the store |
| Teams.AdmittedSound | app/api/teams/route.ts:27-64 | the admitted teams are in non-increasing raisedAmount order and are exactly the stored teams satisfying the filter |
| Teams.ListSound | app/api/teams/route.ts:27-74 | a page is in non-increasing raisedAmount order and holds only stored teams satisfying the filter |
| Teams.ListDefaultsToActive | app/api/teams/route.ts:12 | without a status parameter only ACTIVE teams are listed |
| Teams.ListComplete | app/api/teams/route.ts:27-74 | for a positive limit, every stored team satisfying the filter is on some page |
| Teams.Create | app/api/teams/route.ts:85-149 | the store and the status are CreateSpec of the old store |
| Teams.CreateUnauthorized | app/api/teams/route.ts:89-91 | no session: 401 and nothing changes |
| Teams.CreateInvalid | app/api/teams/route.ts:93-94 | an invalid body: 400 and nothing changes |
| Teams.CreateDangling | app/api/teams/route.ts:108-133 | an unknown creator: 500 and nothing changes |
| Teams.CreateFounds | app/api/teams/route.ts:97-135 | 201; one new team with the parsed fields, a fresh slug, memberCount 1; exactly one membership for it, the creator as LEADER; nothing else changes |
| Teams.CreateValid | app/api/teams/route.ts:85-149 | creation keeps the store consistent |
| Teams.CreateKeepsSlugsDistinct | app/api/teams/route.ts:97-124 | team slugs stay pairwise distinct |

## Left out

- I/O is not modelled: HTTP request and response bodies beyond the status code, `console` logging, and the JSON shapes
  of `include`d names and avatars.
- Stripe signature verification is not modelled. `constructWebhookEvent` is replaced by an `Option<Event>` parameter,
  and `lib/stripe.ts` is not part of this model.
- Concurrency is not modelled: the database is sequential. Prisma's atomic increments, missing transactions and
  races between two requests creating the same slug are all outside the model.
- Clocks are parameters: `Date.now()` and `new Date()` become `now`.
- Prisma's runtime enum validation is not modelled.
  - A `type`, `period`, `status` or `category` query value outside its enum would make Prisma throw (500).
  - Instead, the model treats an unknown leaderboard type as 400, as the route's own switch would. Unknown
    campaign or team statuses and categories simply match nothing.
- Paging.IntParam: `parseInt` of a non-numeric string (NaN) is not modelled. The parameter is either absent or an
  integer.
- Floating point is not modelled.
  - Money is `real`, so rounding of `Number(...)` and `Decimal` arithmetic is outside the model. This includes the
    2-decimal rounding of `malaysianCurrencySchema`.
  - `Math.floor(amount * 0.1)` is modelled as floor(amount / 10).
- Gamification.CampaignPoints: a zero goal is `None` (a non-finite number in the source: NaN with nothing raised, Infinity otherwise). calculateCampaignPoints is never called by
  the core, so it is modelled and proved on its own.
- Campaign and team creation:
  - The default campaign status and team status are parameters, because the Prisma schema that fixes them is not part
    of this model.
  - The default fields of a new TeamMember row (raisedAmount 0) and of a new stats row follow the Prisma upsert's
    `create` clause.
  - Creation order (`orderBy: createdAt desc`) is modelled as descending identifier order.
- Identifier types: a campaign's `teamId` and the query's `userId`/`teamId` are strings in the source. The model
  uses numeric identifiers, compared with the query through their decimal rendering.
- Ties when sorting by raisedAmount or totalRaised are broken by insertion order. The database's tie order is
  unspecified.
- zod `.email()` and `.url()` checks are not modelled (email, coverImage, videoUrl, avatar). Nor are `loginSchema`,
  `campaignUpdateSchema` or `malaysianCurrencySchema`.
- `generateSlug` lower-cases ASCII letters only; Unicode case mapping is not modelled.
- Campaigns.BuildWhere: the `search` filter (`contains` with `mode: 'insensitive'`) folds ASCII letters only. The
  database also folds non-ASCII letters (`ÉCOLE` finds `école`), and that folding depends on the database's collation,
  which is not part of this model.
- Teams.BuildWhere: the same ASCII-only folding applies to the team `search` filter.
- Campaigns.Create: which strings `new Date` parses is a parameter `isDate`. JavaScript's date-string parsing is
  implementation-defined outside ISO 8601, so the model does not fix it.
- Level recomputation: badge rewards and the +5 for creating a campaign raise totalPoints without recomputing level,
  as the source does.
- `if (donation.campaign.creatorId)` on the webhook's team path is always true, because creatorId is a required
  column; the model has no branch for it.
- `lib/utils.ts` `formatCurrency` and `cn`, the React pages and components, `prisma/seed.ts` (except the badge
  used in Gamification.GenerousGiverScenario) and `app/api/badges/route.ts` are not part of this model.

## Findings

| source | as written | input that shows it | evidently intended | confidence | as-written member | corrected member |
|---|---|---|---|---|---|---|
| lib/gamification.ts:27 | `sharePoints[platform] \|\| 1` looks the platform up on a plain object literal, so inherited properties are found too | `calculateSharePoints("constructor")` returns the `Object` function, not a number | any platform outside the table earns 1 point | not executed (trackShareSchema rejects such platforms before this call in the share route) | Gamification.SharePointsAsWrittenConstructor | Gamification.SharePoints |
