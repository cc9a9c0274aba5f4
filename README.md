# Flowva rewards client: a verified model of its reward bookkeeping

The Flowva rewards web client lets users earn points and spend them. They earn
them by claiming a daily streak, by referring friends and by signing up to
partner offers, and they spend them on rewards. The data lives in a remote
relational store. The client reads rows, inserts and upserts them, and calls a
few named remote procedures. This project models that bookkeeping in Dafny:

- The remote tables are fields of one `Backend.Store` object:
  - `streaks`: user id → (count, last claim day)
  - `user_points`: user id → nullable balance
  - `profiles`: user id → profile
  - `rewards`: a sequence
  - `reward_redemptions` and `reward_claims`: append-only sequences
  - `calls`: an append-only log of every remote procedure, auth request and
    upload the client issues.
- Each component that keeps state is a class with that state as fields
  (`StreakCard`, `RedeemPage`, `ReedemCardView`, `LoginPage`, `PointsCard`,
  `PointsHook`, `Header`, `FeaturedCard`). Each handler is a method whose
  `ensures` gives the new component state and the new tables.
- Every remote request takes an `Outcome` parameter (`Ok` or `Fail(message)`)
  that stands for the server's answer. So each error path is modelled, as is
  the point after which an error no longer undoes earlier writes.
- Pure derivations are functions, with lemmas about them. These are the next
  streak, filters and counts, page windows, the card's button rules, links and
  redirects, display names and file extensions.

One module per source file: `StreakCard`, `UseStreak`, `Redeem`, `ReedemCard`,
`Referrals`, `Login`, `PointsCard`, `UsePoints`, `PageHeader`, `FeatureCard`.
Two shared modules sit beside them: `Common` (Option, Outcome, Result, and
JavaScript's `??` / `||` on optional values) and `Backend` (row types, the
store, and the assumed effects of the remote procedures).

Three client methods with no contract of their own chain calls and assert the
outcomes:
- `StreakCard.ClaimScenario`: claims on days 10, 11 and 13 give streaks 1, 2
  and 1, with 5 points each time, and a repeated claim in one session does
  nothing.
- `Redeem.InsufficientScenario`: a balance of 40 against a cost of 50 changes
  nothing.
- `PointsCard.FreshUserReadsZero`: a fresh user's balance reads back as 0.

## Two streak paths, two bonus paths, two redeem guards

- `StreakCard.handleClaim` resets the streak to 1 after a gap, while
  `claimDaily` in `src/hooks/useStreak.ts` adds one whatever the gap.
  `UseStreak.PathsAgreeIffConsecutive` proves that the two paths record the
  same streak exactly when the claim days are consecutive.
- `createUser` in `src/api/referrals.tsx` calls `increment_user_points` with
  `uid` set to the referral code, not the referrer's user id. So the 25 points
  go to a points row keyed by the code, and the referrer's own points row is
  untouched, while the referrer's profile gains one referral
  (`Referrals.ReferrerGetsCountNotPoints`).
- The signup page (`src/pages/Login.tsx`) credits a referrer 100 points through
  a different procedure, `increment_profile_stats`.
- The page's `handleRedeem` checks only the balance; the `coming_soon` check
  lives in the card's `canRedeem`. `ReedemCard.CardGuardImpliesPageGuard` shows
  that every redeem the card allows passes the page's check, and
  `ReedemCard.ReedemCardView.HandleRedeem` uses it.

## Assumptions about the server

The server's procedures cannot be seen from the client. The model assumes these
effects when a procedure succeeds:
- `increment_user_points(uid, amount)`: the row `uid` becomes its old balance
  (0 when absent) plus `amount` (`Backend.CreditPoints`).
- `increment_profile_referrals(code, n)`: every profile with that code gains
  `n` referrals, and its points are unchanged (`Backend.BumpByCode` with point
  increment 0).
- `increment_profile_stats(code, p)`: every profile with that code gains `p`
  points, and its referral count is unchanged (`Backend.BumpByCode` with count
  increment 0). The client passes only the code and the points.
- `redeem_reward`: recorded as a request only.

Plain table operations behave as follows:
- An insert fails on an existing key.
- An upsert overwrites.
- An update of a missing row changes nothing.
- A storage upload returns the name it was given as the stored path.

## Model

| member | source | states |
|---|---|---|
| `StreakCard.StreakCard.constructor` | src/components/StreakCard.tsx:14-21 | a new card has streak 0, no last claim, is not claimed, and `pointsPerDay` defaults to 5 |
| `StreakCard.StreakCard.FetchStreak` | src/components/StreakCard.tsx:26-59 | no user, a read error or a missing row leave the card unchanged; a row sets the streak and the last claim, and sets `claimed` when the last claim is today |
| `StreakCard.StreakCard.HandleClaim` | src/components/StreakCard.tsx:61-125 | no user or already claimed: no write and no state change; otherwise the streak row becomes (old+1 if the last claim was yesterday, else 1; today), then the balance becomes the old balance (0 if no row) plus `pointsPerDay`; a later failure leaves the earlier writes in place and the card's streak, last claim and `claimed` unchanged; on success they are the new streak, today and true, so a second claim is a no-op; loading ends false |
| `StreakCard.NextStreak` | src/components/StreakCard.tsx:70-73 | definition: one more than the stored streak when the last claim was yesterday, else 1 (its meaning is `StreakCard.StreakIsConsecutiveRun`) |
| `StreakCard.StreakIsConsecutiveRun` | src/components/StreakCard.tsx:65-73 | after successive claims the card's streak is exactly the number of consecutive days ending at the last claim: those days are consecutive and no longer tail is |
| `UseStreak.ClaimDaily` | src/hooks/useStreak.ts:3-52 | returns true exactly when the read succeeds, today was not already claimed, and the insert or update succeeds; a missing row becomes (1, today), an existing one (old+1, today) whatever the gap; false means no write and no request; true means exactly one `increment_user_points(userId, 5)` request |
| `UseStreak.DailyStep` | src/hooks/useStreak.ts:17-42 | the claim is rejected exactly when the stored row's last claim is today; an accepted claim records today as the last claim |
| `UseStreak.Credit` | src/hooks/useStreak.ts:29 | the credit request is logged once and applied only when it succeeds; its result is not checked |
| `UseStreak.RepeatSameDayRejected` | src/hooks/useStreak.ts:34 | after a successful claim, a second claim on the same day is rejected |
| `UseStreak.CountIsNumberOfClaims` | src/hooks/useStreak.ts:36-42 | on strictly increasing days the count equals the number of claims, with today's date as the last claim: it never resets |
| `UseStreak.PathsAgreeIffConsecutive` | src/hooks/useStreak.ts:40 | the card's streak equals the hook's count after the same claims exactly when the claim days are consecutive |
| `Redeem.Filtered` | src/pages/Redeem.tsx:82 | filter `all` gives the list itself; otherwise a reward is kept iff it is in the list with that status |
| `Redeem.FilteredKeepsOrder` | src/pages/Redeem.tsx:82 | the filtered list is a subsequence of the list, so order is kept |
| `Redeem.CountsPartition` | src/pages/Redeem.tsx:84-89 | the `all` count is the list length and equals unlocked + locked + coming_soon |
| `Redeem.PagesTile` | src/pages/Redeem.tsx:48 | each page asks for 12 rows and the next page starts right after it |
| `Redeem.PagesDisjoint` | src/pages/Redeem.tsx:48 | no row index is requested by two different pages |
| `Redeem.PageOf` | src/pages/Redeem.tsx:45-50 | a fetched page holds at most 12 rewards |
| `Redeem.PageOfRows` | src/pages/Redeem.tsx:48 | row k of page p is row (p-1)*12+k of the table |
| `Redeem.PagesCoverPrefix` | src/pages/Redeem.tsx:45-50 | pages 1..n read in turn are exactly the first 12n rewards: nothing skipped or repeated |
| `Redeem.Unlock` | src/pages/Redeem.tsx:75-77 | only entries with the redeemed id become `unlocked`; length, order and the other entries are unchanged |
| `Redeem.RedeemPage.constructor` | src/pages/Redeem.tsx:22-29 | the page starts on page 1 with no rewards, balance 0, filter `all` and loading |
| `Redeem.RedeemPage.FetchData` | src/pages/Redeem.tsx:31-57 | without a user nothing changes; the balance is taken from an existing points row (null as 0) and is kept on error or when the row is missing; the reward list is the page's rows, kept on error; loading ends false |
| `Redeem.RedeemPage.HandleRedeem` | src/pages/Redeem.tsx:59-80 | no user or balance below the cost (missing cost is 0): no state change and no request; otherwise one `redeem_reward` request; its error changes nothing; success lowers the balance by exactly the cost, unlocks the matching entries and appends one {user, reward} redemption row when that insert succeeds |
| `Redeem.CountsOf` | src/pages/Redeem.tsx:84-89 | definition: the four tab numbers, the list length and the size of each status filter (related by `Redeem.CountsPartition`) |
| `Redeem.PageRange` | src/pages/Redeem.tsx:48 | definition: the inclusive range `(page-1)*12 .. page*12-1` (its tiling is `Redeem.PagesTile` and `Redeem.PagesDisjoint`) |
| `Redeem.RedeemPage.Shown` | src/pages/Redeem.tsx:82 | definition: the rewards on screen, the current list under the active filter (its properties are `Redeem.Filtered`'s) |
| `Redeem.RedeemPage.SetFilter` | src/pages/Redeem.tsx:107 | the chosen tab becomes the active filter |
| `ReedemCard.CanRedeem` | src/components/ReedemCard.tsx:23-24 | definition: the balance covers the cost (missing as 0) and the reward is not coming_soon |
| `ReedemCard.ButtonLabel` | src/components/ReedemCard.tsx:109-115 | definition: 'Redeeming...', else 'Coming Soon', else 'Redeem Now' when redeemable, else 'Locked' (related by `ReedemCard.CardIsConsistent`) |
| `ReedemCard.ButtonDisabled` | src/components/ReedemCard.tsx:100 | definition: disabled when not redeemable or busy |
| `ReedemCard.ShowsLockedOverlay` | src/components/ReedemCard.tsx:119 | definition: the overlay shows for a locked reward the user cannot redeem |
| `ReedemCard.IconFor` | src/components/ReedemCard.tsx:26-38 | definition: transfer, gift and course get their own icons, anything else the package icon |
| `ReedemCard.TypeColor` | src/components/ReedemCard.tsx:40-51 | definition: the matching background for the same three names, gray otherwise (related by `ReedemCard.IconDeterminesColor`) |
| `ReedemCard.CardIsConsistent` | src/components/ReedemCard.tsx:98-123 | the label is 'Redeem Now' iff the button is enabled; 'Coming Soon' iff not redeeming and coming_soon; the overlay implies a disabled button, and a 'Locked' label when not redeeming; 'Locked' implies the balance is short |
| `ReedemCard.CardGuardImpliesPageGuard` | src/components/ReedemCard.tsx:23-24 | a reward the card allows also passes the page's balance check |
| `ReedemCard.IconDeterminesColor` | src/components/ReedemCard.tsx:26-51 | two icon values give the same icon iff they give the same background; the default icon is chosen iff the value is not transfer, gift or course |
| `ReedemCard.ReedemCardView.constructor` | src/components/ReedemCard.tsx:20-21 | a card starts not redeeming; its balance is the page's (`userPoints` passed down at src/pages/Redeem.tsx:131) |
| `ReedemCard.ReedemCardView.HandleRedeem` | src/components/ReedemCard.tsx:53-58 | the page's handler is called iff `canRedeem` on the page's balance; when it is not called nothing changes; when it is, a signed-in user's `redeem_reward` request is always made (the page's balance check passes), and the page's balance, list and redemption log change exactly as the page's handler states; `isRedeeming` is false afterwards |
| `Referrals.CreateUser` | src/api/referrals.tsx:4-37 | a failed insert throws with nothing written; otherwise it returns the new profile: points 0, count 0, 8-character code, referred_by the code or null; with a code, one referral request and one 25-point request for uid = the code; without one, no referrer data changes; then the new user's points row is upserted to 0 |
| `Referrals.CreditReferrer` | src/api/referrals.tsx:26-30 | the two referrer requests are logged in order and each applies only when it succeeds |
| `Referrals.NewProfile` | src/api/referrals.tsx:9-17 | definition: the inserted profile (its properties are `Referrals.NewProfileStartsEmpty`) |
| `Referrals.ReferralLink` | src/api/referrals.tsx:64 | definition: origin + '/signup?ref=' + code (its inverse is `Referrals.CodeOfLink`, by `Referrals.LinkCarriesCode`) |
| `Referrals.NewProfileStartsEmpty` | src/api/referrals.tsx:5-17 | the new profile has no points and no referrals, an 8-character code, and records the referrer code exactly when one is given |
| `Referrals.ReferrerGetsCountNotPoints` | src/api/referrals.tsx:27-29 | the referrer's profile gains one referral and keeps its points; its own points row is unchanged, while the row keyed by its code gains 25 |
| `Referrals.LinkCarriesCode` | src/api/referrals.tsx:64 | the referral link gives back exactly the code it was built from |
| `Referrals.GetReferralStats` | src/api/referrals.tsx:43-66 | fails iff the read fails; no row gives {0, 0, ''}; a row gives its referral count and points, and a link whose code is the profile's |
| `Login.QueryGet` | src/pages/Login.tsx:15-16 | the referrer is absent iff no `ref` pair is given; otherwise it is the value of the first `ref` pair |
| `Login.SignupProfile` | src/pages/Login.tsx:31-37 | definition: the profile signup inserts: first 8 characters of the UUID, `ref` or null, points 0 |
| `Login.RedirectUrl` | src/pages/Login.tsx:72 | definition: the OAuth redirect (its shape is `Login.RedirectCarriesCode`) |
| `Login.RedirectCarriesCode` | src/pages/Login.tsx:72 | the OAuth redirect is origin + '/rewards', followed by '?ref=' + code exactly when a code is known |
| `Login.LoginPage.constructor` | src/pages/Login.tsx:6-16 | the page's referrer is the `ref` query parameter; the form starts empty with no error |
| `Login.LoginPage.HandleSubmit` | src/pages/Login.tsx:18-66 | sign-in: its error is shown, or the page goes to /rewards. Signup: a sign-up error, or the profile insert's error message (the duplicate-key message for an existing id), is shown with the fallback 'An unexpected error occurred', and stops the streak row, the referral bonus, the sign-in and the navigation. Otherwise the profile (points 0, first 8 characters of the UUID, ref or null) and a streak row with count 0 are written, exactly one `increment_profile_stats(ref, 100)` request is made when a ref is present, then sign-in and navigation follow; loading ends false |
| `Login.LoginPage.SignUpFlow` | src/pages/Login.tsx:24-54 | the signup branch's requests in order; the error that stops it is the sign-up error or the profile insert's message; no user means no error |
| `Login.LoginPage.InsertSignupRows` | src/pages/Login.tsx:29-51 | a failed profile insert (or an existing id) changes nothing and returns its message (the duplicate-key message for an existing id); otherwise the profile, the streak row (if absent) and the 100-point bonus are written |
| `Login.LoginPage.HandleGoogleAuth` | src/pages/Login.tsx:68-75 | one Google sign-in request with the redirect built from the origin and the ref |
| `Login.LoginPage.HandleForgotPassword` | src/pages/Login.tsx:77-89 | an empty email sets the error and sends nothing; otherwise one reset request is sent and its error is shown |
| `PointsCard.PointsCard.constructor` | src/components/PointsCard.tsx:5-8 | the card starts showing 0 |
| `PointsCard.PointsCard.FetchPoints` | src/components/PointsCard.tsx:10-46 | no user: nothing read or written; an existing row is shown (null as 0) and never overwritten; only a missing row is inserted as 0; every error shows 0 |
| `UsePoints.PointsHook.constructor` | src/hooks/usePoints.ts:4-5 | the hook starts at 0 points |
| `UsePoints.PointsHook.Load` | src/hooks/usePoints.ts:7-16 | no user: points stay; otherwise the profile's points, or 0 when the row or field is absent or the read fails |
| `UsePoints.PointsHook.AddPoints` | src/hooks/usePoints.ts:18-29 | no user is a no-op; the profile is set to cached points + amount with no fresh read, and the cache becomes that value; a failed or rowless update changes neither |
| `PageHeader.UnreadCount` | src/components/PageHeader.tsx:66 | the badge is at most the list length, and 0 iff no entry is unread |
| `PageHeader.MarkAllRead` | src/components/PageHeader.tsx:87-92 | every entry becomes read; ids, titles, length and order are unchanged |
| `PageHeader.MarkRead` | src/components/PageHeader.tsx:100-107 | only entries with the opened id become read; the others are unchanged |
| `PageHeader.OpenLowersBadge` | src/components/PageHeader.tsx:100-107 | opening an entry lowers the badge by exactly the unread entries with its id |
| `PageHeader.BeforeAt` | src/components/PageHeader.tsx:37 | the result is the prefix of the email before its first '@', or all of it when there is none |
| `PageHeader.DisplayName` | src/components/PageHeader.tsx:35-38 | definition: the full name if present, else the email's text before '@' if not empty, else the current greeting (its properties are `PageHeader.DisplayNameIsClean`) |
| `PageHeader.DisplayNameIsClean` | src/components/PageHeader.tsx:33-40 | the greeting is never empty, and without a full name it holds no '@' |
| `PageHeader.Header.constructor` | src/components/PageHeader.tsx:28-31 | the panel starts closed with nothing selected and the greeting 'there' |
| `PageHeader.Header.LoadUser` | src/components/PageHeader.tsx:33-40 | the greeting becomes the full name if present, else the email's text before '@' if not empty, else stays |
| `PageHeader.Header.MarkAll` | src/components/PageHeader.tsx:87-92 | the list is marked read and the badge is 0 |
| `PageHeader.Header.DeleteAll` | src/components/PageHeader.tsx:94-98 | the list is empty and the panel closed |
| `PageHeader.Header.OpenNotification` | src/components/PageHeader.tsx:100-107 | only the matching entries are marked read, the entry is selected, and the badge drops by the unread ones among them |
| `PageHeader.Header.OnKeyDown` | src/components/PageHeader.tsx:76-85 | Escape closes the panel and the selected entry; other keys change nothing |
| `PageHeader.Header.TogglePanel` | src/components/PageHeader.tsx:129 | the bell flips the panel |
| `FeatureCard.Extension` | src/components/FeatureCard.tsx:40 | the extension is the dot-free suffix of the file name after its last '.', or the whole name when it has none |
| `FeatureCard.ExtensionAfterDot` | src/components/FeatureCard.tsx:40 | any name ending in '.' + dot-free text has that text as its extension |
| `FeatureCard.UploadName` | src/components/FeatureCard.tsx:41 | definition: `userId_timestamp.ext` (it keeps the extension by `FeatureCard.UploadKeepsExtension`) |
| `FeatureCard.CanSubmit` | src/components/FeatureCard.tsx:32 | definition: an email, a file and a signed-in user |
| `FeatureCard.UploadKeepsExtension` | src/components/FeatureCard.tsx:40-41 | the stored name `userId_timestamp.ext` has the chosen file's extension |
| `FeatureCard.FeaturedCard.constructor` | src/components/FeatureCard.tsx:14-26 | `pointsToClaim` defaults to 25; the form starts closed and empty |
| `FeatureCard.FeaturedCard.Submit` | src/components/FeatureCard.tsx:28-67 | a missing email, file or user sets the error and sends nothing; otherwise one upload under `userId_timestamp.ext`; an upload error inserts no claim row; the claim row holds user, email, uploaded path, `pointsToClaim` and title; success closes the form and clears email and file; loading ends false |
| `FeatureCard.FeaturedCard.Send` | src/components/FeatureCard.tsx:43-57 | the upload is requested once, and the claim row is appended only when both requests succeed |
| `Backend.PointsOf` | src/components/StreakCard.tsx:97 | definition: a user's balance, 0 when the row is missing or null |
| `Backend.CreditPoints` | src/hooks/useStreak.ts:29 | assumed effect of `increment_user_points`: the balance of `uid` rises by the amount and no other row changes |
| `Backend.BumpByCode` | src/api/referrals.tsx:27 | assumed effect of the two profile procedures: only profiles with the code change; the referral count moves only for a non-zero count increment and the points only for a non-zero point increment; no other column changes |
| `Common.OrNull` | src/api/referrals.tsx:13 | `referredBy \|\| null` keeps a non-empty code and nulls an empty or absent one |

## Left out

- Rendering, CSS classes, modals, toasts, alerts and routing. Navigation is the field `LoginPage.navigatedTo`.
- Two card mechanics are also left out: the streak card's own button rules (disabled while claimed or loading) and its weekday strip, because both are presentation only.
- The seeded notification texts are not modelled, because they are presentation. The header's constructor takes the seeded list as given. The re-seeding on a name change is not modelled.
- Time and dates. Days are integer day numbers. The card compares UTC dates when it loads (`src/components/StreakCard.tsx:45-47`) but local dates when it decides "yesterday" (`src/components/StreakCard.tsx:71`). This mismatch is not modelled.
- `Date.now()` is the opaque text `stamp`.
- `nanoid(8)` and `crypto.randomUUID()` are opaque inputs. Only their lengths are kept (8 and 36).
- The id the database gives a new profile is an input.
- Concurrency: the 10-second polling in `PointsCard`, lost updates from read-then-write balances, and multiple tabs. Every method runs alone.
- The server's procedures (`redeem_reward`, `increment_user_points`, `increment_profile_referrals`, `increment_profile_stats`) and the auth and storage services. They are logged requests, with the assumed effects listed above.
- `Redeem.RedeemPage.FetchData`: assumes rows past the end of the table are simply absent. It does not model an error for an out-of-range request. The page is always 1 anyway.
- Creation timestamps and file contents are not modelled.
- The floating-point progress bar (`src/components/PointsCard.tsx:56`) is not modelled.
- Column defaults are unknown. A profile inserted by signup gets no referral count from the client, so its count is null in the model.
- `streak_count` is modelled as never null, because every writer sets it.
