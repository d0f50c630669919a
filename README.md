# Marketplace backend rules: a Dafny model

This project models the service-layer rules of a NestJS freelance-marketplace
backend. Owners post projects, freelancers bid on them, and the site moves
money between wallets and escrow. Projects move through a lifecycle. Each
project has staged chat rooms. Users rate each other, hold one identity
verification record and one personal profile, take out subscriptions, and
receive templated notifications, some of them scheduled for a cron job.

Each service of the repository becomes one Dafny module holding one class:

- Its tables are fields of type `seq` or `map`.
- Its operations are methods with `modifies` clauses. Each method's
  `ensures` states the whole new state and the result on every path the
  model takes; the paths it does not take are listed under "Left out".
- The pure rules are functions. They are stated by their own contracts and
  by lemmas: the wallet ledger's conservation and non-negativity, the bid
  quota's daily limit, the chat stage progression and paging, rating bounds,
  placeholder substitution, channel delivery under `stopOnFailure`, username
  suggestions, the sensitive-field test, and the guards' any-of and all-of
  checks.

Modelling choices:

- Ids are table positions. A user's id is its position plus one, as the
  auto-increment key gives it.
- Time is an integer of milliseconds.
- Money and ratings are exact `real`s.
- Services that inject another service hold a `const` reference to the same
  instance.
- External calls are parameters:
  - the exchange rate,
  - the channel providers,
  - password comparison,
  - random draws,
  - the JSON parser,
  - the clock.

Files:

| file | module | models |
|---|---|---|
| common.dfy | Common | Option/Result, the error kinds, time constants, decimal strings, ASCII lower-casing |
| users.dfy | Users | src/modules/users/users.service.ts, users.entity.ts, refresh-token.entity.ts |
| wallets.dfy | Wallets | src/modules/wallets/wallets.service.ts |
| subscriptions.dfy | Subscriptions | src/modules/subscriptions/subscription.service.ts |
| projects.dfy | Projects | src/modules/projects/projects.service.ts |
| bids.dfy | Bids | src/modules/bids/bids.service.ts |
| chat.dfy | Chat | src/modules/chats/chat.service.ts |
| ratings.dfy | Ratings | src/modules/ratings/ratings.service.ts |
| auth.dfy | Auth | src/modules/auth/auth.service.ts |
| notifications.dfy | Notifications | src/modules/notifications/notification.service.ts |
| scheduled.dfy | ScheduledNotifications | src/modules/notifications/scheduled-notifications.service.ts |
| kyc_verification.dfy | KycVerification | src/modules/kyc/services/kyc-verification.service.ts |
| kyc_personal_info.dfy | KycPersonalInfo | src/modules/kyc/services/kyc-personal-info.service.ts |
| guards.dfy | Guards | src/core/guards/roles.guard.ts, src/core/guards/features.guard.ts |
| themes.dfy | Themes | src/modules/themes/themes.service.ts |

Dafny verifies every file together: `dafny verify *.dfy`.

## Model

| member | source | states |
|---|---|---|
| Users.ToggleRoles | src/modules/users/users.service.ts:213-223 | 'Freelancer' is always present afterwards. 'Owner' is present iff it was absent before. Every other role is kept and no other role is added. |
| Users.FirstWithEmail | src/modules/users/users.service.ts:128-130 | The first row holding the e-mail, or None iff no row holds it. |
| Users.ValidateRefreshToken | src/modules/users/users.service.ts:87-100 | Accepted iff the token is stored, not revoked and expires strictly after now. The result is the id of the token's user, or null for a token of an admin or of nobody. Otherwise Unauthorized. |
| Users.PruneUnrevoked | src/modules/users/users.service.ts:70-73 | Exactly the user's unrevoked tokens are removed; every other token is kept unchanged. |
| Common.Without | src/modules/users/users.service.ts:219 | Exactly the elements other than the removed value remain, and the list never grows. |
| Common.Lower | src/modules/kyc/services/kyc-verification.service.ts:73 | Every ASCII capital is lowered, every other character is kept and the length is unchanged. |
| Users.IsUserProjectOwner | src/modules/users/users.service.ts:235-246 | True iff the user exists and owns at least one project. |
| Users.UsersService.Find | src/modules/users/users.service.ts:28-62 | The row with that id, present iff the id is in range. |
| Users.UsersService.FindByEmail | src/modules/users/users.service.ts:128-130 | The id of a user holding the e-mail, or None iff no user holds it. |
| Users.UsersService.ChangeUserRole | src/modules/users/users.service.ts:205-226 | NotFound for a missing user. Otherwise only that user's roles change, to ToggleRoles of the old roles. |
| Users.UsersService.UpdateUser | src/modules/users/users.service.ts:168-177 | An empty update is refused with BadRequest before any read. A missing user gives NotFound. Otherwise the supplied keys overwrite that user alone. |
| Users.UsersService.CreateOrUpdateRefreshToken | src/modules/users/users.service.ts:64-77 | NotFound for a missing user. Otherwise the user's unrevoked tokens are deleted, then the new token is stored. On success it is the user's only unrevoked token; a token string still held is refused. |
| Users.UsersService.Create | src/modules/users/users.service.ts:110-126 | An existing e-mail is surfaced as InternalServerError with nothing written. Otherwise one user is appended with the column defaults. |
| Users.UsersService.VerifyEmail | src/modules/users/users.service.ts:145-151 | The e-mail is marked verified and the code and its expiry are cleared. A missing id changes nothing. |
| Wallets.RunKeepsNonNegative | src/modules/wallets/wallets.service.ts:97-103 | With non-negative amounts, no sequence of wallet calls drives balance, available, pending or escrow below 0. |
| Wallets.Apply | src/modules/wallets/wallets.service.ts:97-268 | A deposit always applies, adds 80% of the amount to available and 20% to pending, keeps escrow, and leaves balance = available + pending. An admitted deduction lowers the balance by the amount and leaves available, pending and escrow as they were. A deduction or hold is refused iff the balance is below the amount. An escrow move keeps balance + escrow. The currency never changes. |
| Wallets.ConcatenatedValue | src/modules/wallets/wallets.service.ts:228 | The digits of an escrow followed by the digits of an amount read back as the escrow shifted left by the amount's digit count, plus the amount. |
| Wallets.HeldEscrowAsWritten | src/modules/wallets/wallets.service.ts:228 | As written, the escrow saved by a hold is the stored escrow shifted left by the amount's digit count, plus the amount. |
| Wallets.HeldEscrowAsWrittenOvercounts | src/modules/wallets/wallets.service.ts:228 | As written, a hold onto a non-zero escrow saves more than the sum: 100 plus 30 is saved as 10030. |
| Wallets.EscrowMovesConserveTotal | src/modules/wallets/wallets.service.ts:220-248 | Holding and releasing escrow keep balance + escrow, available and pending unchanged. |
| Wallets.DepositResetsBalance | src/modules/wallets/wallets.service.ts:97-103 | After any history, a deposit sets balance = available + pending. The new balance is the old available plus the old pending plus the deposit, whatever was deducted before. |
| Wallets.DeductionBreaksIdentity | src/modules/wallets/wallets.service.ts:143-146 | A positive deduction the balance covers applies, lowers the balance by the amount, leaves available, pending and escrow unchanged, and so breaks balance = available + pending. |
| Wallets.RefundRepeats | src/modules/wallets/wallets.service.ts:252-288 | Nothing marks a withdrawal as refunded: refunding it n times credits 90% of it n times and leaves escrow alone. |
| Wallets.TransactionIdsOf | src/modules/wallets/wallets.service.ts:291-302 | Exactly the user's log entries, newest first. |
| Wallets.WalletService.GetWallet | src/modules/wallets/wallets.service.ts:60-77 | The user's wallet, NotFound for a missing user, BadRequest for a user without a wallet. |
| Wallets.WalletService.WalletIn | src/modules/wallets/wallets.service.ts:210-217 | The user's wallet iff it is held in the given currency. |
| Wallets.WalletService.CreateWallet | src/modules/wallets/wallets.service.ts:27-57 | A missing user or an existing wallet is refused with nothing written. Otherwise a wallet with every sub-balance 0 is added and nothing else changes. |
| Wallets.WalletService.RecordTransaction | src/modules/wallets/wallets.service.ts:305-322 | Exactly one completed entry is appended to the log; the wallets are untouched. |
| Wallets.WalletService.AddFunds | src/modules/wallets/wallets.service.ts:80-124 | The amount is converted only when the currencies differ, split 80/20, and the balance is recomputed. One DEPOSIT of the converted amount is logged. Lookup errors write nothing. |
| Wallets.WalletService.DeductFunds | src/modules/wallets/wallets.service.ts:127-166 | Insufficient funds writes nothing. Otherwise only the balance drops by the converted amount, and one WITHDRAWAL of minus that amount is logged. |
| Wallets.WalletService.TransferToFreelancer | src/modules/wallets/wallets.service.ts:169-184 | The same state change as DeductFunds on the named user: it debits, and the commission moves nothing. |
| Wallets.WalletService.TransferToSiteAccount | src/modules/wallets/wallets.service.ts:187-201 | The admin's wallet in that currency gains the whole amount; nothing is split or logged. A missing wallet gives an error. |
| Wallets.WalletService.HoldFundsInEscrow | src/modules/wallets/wallets.service.ts:207-231 | Needs a wallet in that currency holding at least the amount. The amount moves from balance to escrow and nothing is logged. |
| Wallets.WalletService.ReleaseEscrowFunds | src/modules/wallets/wallets.service.ts:234-249 | Refused when the wallet is missing, or escrow is 0 or below the amount. Otherwise the amount moves from escrow to balance. |
| Wallets.WalletService.RefundTransaction | src/modules/wallets/wallets.service.ts:252-288 | The transaction must be the user's and not positive. 90% of its magnitude is credited and logged as a REFUND. A deposit is refused with nothing written. |
| Wallets.WalletService.GetTransactions | src/modules/wallets/wallets.service.ts:291-302 | The user's transactions and only those, newest first. |
| Subscriptions.FirstActive | src/infrastructure/repositories/subscription.repository.ts:15-21 | The first 'active' subscription of the user, regardless of dates. With an undefined id the user condition is dropped. |
| Subscriptions.RenewalsAdd | src/modules/subscriptions/subscription.service.ts:100-114 | A run of renewals of a subscription is one renewal by the sum of their durations, and no field but the end date changes. |
| Subscriptions.Renewed | src/modules/subscriptions/subscription.service.ts:110-112 | A renewal moves the end date by exactly the duration in days of 86 400 000 ms and changes no other field. |
| Subscriptions.SubscriberFeatures | src/modules/subscriptions/subscription.service.ts:117-126 | [] without an active subscription or its package. Otherwise the package's features, or [] when they are null. |
| Subscriptions.SubscriptionService.IsSubscriptionActive | src/modules/subscriptions/subscription.service.ts:16-20 | True iff some subscription of the user has status 'active'. |
| Subscriptions.SubscriptionService.CreateSubscription | src/modules/subscriptions/subscription.service.ts:23-59 | A missing user or package gives NotFound with nothing written. Otherwise one active subscription is appended, from now to now plus the package duration in days. |
| Subscriptions.SubscriptionService.CancelSubscription | src/modules/subscriptions/subscription.service.ts:93-97 | Only that subscription's status changes, to 'cancelled'. An unknown id changes nothing. |
| Subscriptions.SubscriptionService.RenewSubscription | src/modules/subscriptions/subscription.service.ts:100-114 | Only the end date moves, by exactly duration × 86 400 000 ms. A missing subscription gives NotFound. |
| Projects.NextStageOf | src/modules/projects/projects.service.ts:130-137 | Introduction, negotiation and contract have a successor; every other key has none. |
| Projects.LifecycleStatusesNeverAdvance | src/modules/projects/projects.service.ts:126-149 | The map is looked up by status, so no ProjectStatus value can advance. |
| Projects.TestingPaymentMovesWholeBid | src/modules/projects/projects.service.ts:270-287 | The two testing-stage wallet calls lower the balance by the whole bid and raise escrow by 30%. |
| Projects.ProjectService.CreateProject | src/modules/projects/projects.service.ts:35-62 | The owner must exist and hold 'Owner', and the category must exist. Otherwise an error with nothing written. On success one pending project is appended. |
| Projects.ProjectService.UpdateProjectStatus | src/modules/projects/projects.service.ts:64-84 | Any of the six ProjectStatus values is set whatever the current status. Any other value is refused. |
| Projects.ProjectService.AdvanceProjectStage | src/modules/projects/projects.service.ts:123-153 | Owner only. Entering 'contract' creates a default contract when there is none. From a store holding only lifecycle statuses, the owner always gets "Invalid stage transition". |
| Projects.ProjectService.RejectBid | src/modules/projects/projects.service.ts:168-184 | Only the named bid changes, to 'rejected'. |
| Projects.ProjectService.AcceptBid | src/modules/projects/projects.service.ts:187-243 | Only a pending project with a non-zero duration. It then runs from now for duration days, with the bid selected and accepted, and the bid amount credited to admin 3's site wallet. |
| Projects.ProjectService.AcceptBidAsWritten | src/modules/projects/projects.service.ts:187-243 | As written the call never succeeds: after every write, reading the unloaded freelancer relation for the notification throws. |
| Projects.ProjectService.SendProjectToTesting | src/modules/projects/projects.service.ts:246-302 | Only from in_progress. The testing status is saved before the selected-bid check. With a selected bid there are four outcomes: a missing wallet or user gives that error with no money moved; too little balance gives "Insufficient funds" with nothing moved; a wallet in another currency is debited and logged, and the hold then gives "Wallet not found for freelancer"; too little left for the hold keeps the debit and its log entry and gives "Insufficient funds to hold in escrow". Otherwise 70% is deducted and 30% moved to escrow. |
| Projects.ProjectService.SendProjectToTestingAsWritten | src/modules/projects/projects.service.ts:255-270 | As written the status is saved and then `bid.freelancer.id` throws, so no money moves and the call never succeeds. |
| Projects.ProjectService.CompleteProject | src/modules/projects/projects.service.ts:305-338 | Only from in_progress, not from testing. The status is saved first. With a selected bid, a missing wallet or user, or too little balance, gives that error with no money moved. Otherwise the bid less the 10% fee is deducted from the freelancer and logged. |
| Projects.ProjectService.CompleteProjectAsWritten | src/modules/projects/projects.service.ts:315-332 | As written the project is saved as completed and the payment throws before any wallet is touched. |
| Bids.FirstCurrent | src/modules/bids/bids.service.ts:54-61 | The first active subscription of the user whose period contains now, ends included. |
| Bids.DailyCap | src/modules/bids/bids.service.ts:54-69 | 5 without a current subscription. A current subscription without a package makes the read throw. Otherwise the package's maxBidsPerDay when truthy, and 5 for a falsy value, for a list of feature names or for no features. |
| Bids.Refill | src/modules/bids/bids.service.ts:72-79 | On a new day the counter is refilled to the cap; on the same day it is kept. |
| Bids.Admit | src/modules/bids/bids.service.ts:72-92 | Admitted iff the refilled counter is positive. An admitted bid costs exactly one, and the refill is kept even on refusal. |
| Bids.SameDayBound | src/modules/bids/bids.service.ts:82-92 | Once refilled today, at most the remaining count of a run of sequential attempts is admitted. |
| Bids.DailyLimit | src/modules/bids/bids.service.ts:72-92 | On a new day a run of sequential attempts admits at most the cap in force at the first one. |
| Bids.ExhaustedStaysExhausted | src/modules/bids/bids.service.ts:82-86 | After a refusal every later attempt that day is refused. |
| Bids.NewBid | src/modules/bids/bids.service.ts:95-101 | The saved bid links the freelancer, project and owner. Status is the request's or 'pending', currency the request's or 'SPY'. |
| Bids.BidService.Eligibility | src/modules/bids/bids.service.ts:22-50 | Passes iff freelancer, owner and project exist, the project is exactly 'pending' and the freelancer has no bid on it. Each failure has its own error, in source order. |
| Bids.BidService.TakeBid | src/modules/bids/bids.service.ts:72-92 | The freelancer's counter becomes Admit's counter, and the result is Admit's verdict. |
| Bids.BidService.CreateBid | src/modules/bids/bids.service.ts:21-102 | Failed eligibility writes nothing. Then the refill is written, and either the attempt is refused or the counter drops by one and exactly one bid is appended. |
| Chat.NextStage | src/modules/chats/chat.service.ts:461-465 | introduction→negotiation→contract→execution. Execution maps to itself, and an unknown stage to introduction. |
| Chat.IndexOf | src/modules/chats/chat.service.ts:463 | The first position of the value, or -1 iff it is absent. |
| Chat.FourStepsReachExecution | src/modules/chats/chat.service.ts:461-465 | From any stage, four or more steps reach execution. |
| Chat.ExecutionIsFinal | src/modules/chats/chat.service.ts:464 | Execution is kept for ever. |
| Chat.NegotiationSendersCanJoin | src/modules/chats/chat.service.ts:584-631 | In the negotiation stage whoever may send may also join. |
| Chat.OutsiderSendsButCannotJoin | src/modules/chats/chat.service.ts:584-631 | In the introduction stage a user with no bid may send but not join. |
| Chat.NullSignatureSilencesNonOwners | src/modules/chats/chat.service.ts:597-604 | In the contract and execution stages a non-owner may send iff the freelancer signature is not exactly null. |
| Chat.OwnerAlwaysAllowed | src/modules/chats/chat.service.ts:584-631 | The project owner may send and join in every stage, whatever the bids and the contract. |
| Chat.UnknownStageSilences | src/modules/chats/chat.service.ts:605-607 | A stage outside the four known ones lets no non-owner send. |
| Chat.JsSlice | src/modules/chats/chat.service.ts:230-233 | In-range bounds give exactly s[start..end]. Any bounds give a contiguous piece of s. |
| Chat.HistoryPage | src/modules/chats/chat.service.ts:230-233 | A page is a contiguous piece of the history, no longer than a positive limit. Without a limit and offset (or with zeros) it is the whole history. |
| Chat.PageIsWindow | src/modules/chats/chat.service.ts:230-233 | A positive limit and an offset give messages [offset, offset + limit), clamped to the list. |
| Chat.DefaultPageIsEverything | src/modules/chats/chat.service.ts:230-233 | Without limit and offset the whole history is returned. |
| Chat.ConsecutivePages | src/modules/chats/chat.service.ts:230-233 | Two consecutive pages of one size make up the page of twice that size. |
| Chat.RoomMessageIds | src/modules/chats/chat.service.ts:219-226 | Exactly the room's live messages, newest first. |
| Chat.FirstRoom | src/modules/chats/chat.service.ts:541-546 | A room of the project with the type, no earlier room matching, or None iff there is none. |
| Chat.InitialRooms | src/modules/chats/chat.service.ts:378-392 | Four rooms, one per stage in order. The introduction room is active and allows only the owner; the others are locked with no allowed users. |
| Chat.ChatService.ProjectById | src/modules/chats/chat.service.ts:129 | The project with that id, present iff it is stored. |
| Chat.ChatService.GetChatHistory | src/modules/chats/chat.service.ts:215-235 | NotFound iff the project has no room of that type. Otherwise the requested page of that room's live messages, newest first, and the whole history without limit and offset. |
| Chat.ChatService.JoinStageChat | src/modules/chats/chat.service.ts:125-170 | Succeeds iff the caller is identified, the project exists, the caller is its owner or has a bid on it, and the project has a room of the requested type. The stage is never consulted. A refused check gives Forbidden, and a missing room NotFound from the awaited history. |
| Chat.ChatService.GetOrCreateChatRoom | src/modules/chats/chat.service.ts:537-557 | An existing room is returned unchanged. Otherwise only the owner creates one, and anyone else gets Forbidden. |
| Chat.ChatService.InitializeProjectChat | src/modules/chats/chat.service.ts:370-394 | The four rooms are appended only when the project has none. A missing project throws. |
| Chat.ChatService.InitializeProjectChatAsWritten | src/modules/chats/chat.service.ts:385-392 | As written, only the introduction room is stored; the save of the first 'locked' room is refused by the status enum. |
| Chat.ChatService.HandleMessage | src/modules/chats/chat.service.ts:61-92 | Needs an identified sender, an existing receiver and permission to send. The message goes into the project's first room; without one, only the owner creates the introduction room, and anyone else gets Forbidden with nothing written. One message is appended as 'delivered', the caller gets the 'sent' copy, and no other room changes. |
| Chat.ChatService.MarkMessageAsRead | src/modules/chats/chat.service.ts:195-212 | Only that message's status changes, to 'read'; a missing message gives NotFound. |
| Chat.ChatService.SenderCheck | src/modules/chats/chat.service.ts:243-251 | Passes iff the message exists and the caller is its sender; NotFound for a missing message. |
| Chat.ChatService.UpdateMessage | src/modules/chats/chat.service.ts:238-256 | The sender alone may edit, and only the content of that message changes. |
| Chat.ChatService.DeleteMessage | src/modules/chats/chat.service.ts:259-278 | The sender alone may delete, and only that message goes. |
| Chat.ChatService.ReactMessage | src/modules/chats/chat.service.ts:310-333 | Corrected: the reaction is pushed onto the message's list, which starts from [] when null, and the updated message is returned. No other message changes. |
| Chat.ChatService.ReactMessageAsWritten | src/modules/chats/chat.service.ts:310-333 | As written, the reaction is saved and the call then fails on the unloaded receiver. |
| Chat.WithReaction | src/modules/chats/chat.service.ts:322-325 | One reaction is appended to the list, and no other field of the message changes. |
| Chat.ReactionsAccumulate | src/modules/chats/chat.service.ts:322-325 | Over any run of reactions, every reaction is kept, repeats included, in the order made, and nothing else of the message changes. |
| Ratings.TotalPositiveIffPresent | src/modules/ratings/ratings.service.ts:110-115 | The total weight is positive iff some criterion is present. |
| Ratings.SumBetween | src/modules/ratings/ratings.service.ts:110-133 | With scores between lo and hi, the weighted sum lies between lo and hi times the total weight. |
| Ratings.WeightedBetween | src/modules/ratings/ratings.service.ts:106-137 | The weighted rating lies between the smallest and largest present score. |
| Ratings.WeightedZeroWhenEmpty | src/modules/ratings/ratings.service.ts:136 | With no criterion present the weighted rating is 0. |
| Ratings.ValidatedWeightedInRange | src/modules/ratings/ratings.service.ts:106-137 | For a record the request validation admits, the weighted rating is within 1..5. |
| Ratings.CalculateWeightedRating | src/modules/ratings/ratings.service.ts:106-137 | The accumulation loop computes the weighted mean of the present criteria, with professionalism weighted 1.5. |
| Ratings.SumWeightedBetween | src/modules/ratings/ratings.service.ts:148-151 | The reduce over validated records lies between 1·n and 5·n. |
| Ratings.AverageInRange | src/modules/ratings/ratings.service.ts:143-153 | The average of validated records is within 1..5. |
| Ratings.CritSumBetween | src/modules/ratings/ratings.service.ts:203-254 | Without nulls, a criterion's sum lies between lo and hi times its count. |
| Ratings.CritAverageBetween | src/modules/ratings/ratings.service.ts:203-296 | Without nulls, a criterion's average lies within the bounds of its scores. |
| Ratings.NullCountsAsZero | src/modules/ratings/ratings.service.ts:203-254 | A null criterion is counted and adds 0: one null and one 4 average to 2. |
| Ratings.GetPerformanceAnalysis | src/modules/ratings/ratings.service.ts:159-303 | No ratings give {0, 0, {}}. Otherwise the count, the mean weighted rating and each criterion's average, null when no record has that criterion. |
| Ratings.ChecksAsWritten | src/modules/ratings/ratings.service.ts:44-84 | The exact-case checks: a rater 'owner' always passes, and a rater 'freelancer' passes iff 'owner' is among the rated user's roles. |
| Ratings.ChecksAsWrittenMissStoredRoles | src/modules/ratings/ratings.service.ts:46-84 | With a validated rater role and roles the system writes, the completed-project check never runs, and a freelancer can rate nobody. |
| Ratings.Checks | src/modules/ratings/ratings.service.ts:44-84 | Case-insensitive checks. An owner rating a completed project is refused. An owner must rate a freelancer and a freelancer an owner, and each such pairing is admitted. |
| Ratings.FreelancerRatesStoredOwner | src/modules/ratings/ratings.service.ts:74-84 | With the intended checks a freelancer may rate a user holding the stored role 'Owner'. |
| Ratings.RatingService.CreateRating | src/modules/ratings/ratings.service.ts:44-88 | With the intended checks and links, an admitted request is appended and heads the rated user's list. A refused one writes nothing. |
| Ratings.RatingService.CreateRatingAsWritten | src/modules/ratings/ratings.service.ts:44-88 | With the checks as written, an admitted request is appended without its links, so no user's list of received ratings changes. |
| Ratings.RatingService.ProjectOf | src/modules/ratings/ratings.service.ts:46-50 | The rated project, present iff its id is stored. |
| Ratings.ReceivedIds | src/modules/ratings/ratings.service.ts:94-100 | Exactly the positions of the ratings linked to the user, each once, newest first. |
| Ratings.RatingsAt | src/modules/ratings/ratings.service.ts:94-100 | The ratings at the given positions, in that order. |
| Ratings.Record | src/modules/ratings/ratings.service.ts:86-87 | Corrected: the stored rating carries the request's rater and rated links. |
| Ratings.RecordAsWritten | src/modules/ratings/ratings.service.ts:86-87 | As written: the stored rating keeps every column of the request but has no rater or rated link. |
| Ratings.AppendUnlinkedIsInvisible | src/modules/ratings/ratings.service.ts:86-100 | A rating stored without its rated link is in no user's list. |
| Ratings.AppendLinkedComesFirst | src/modules/ratings/ratings.service.ts:86-100 | A rating linked to a user heads that user's list. |
| Ratings.RatingService.RatingsFor | src/modules/ratings/ratings.service.ts:94-100 | Exactly the ratings whose rated link is the user, each once, newest first. |
| Auth.RefreshTtl | src/modules/auth/auth.service.ts:75-76 | A configured lifetime is used, and 7 days when it is unset or unparsable. |
| Auth.VerificationCode | src/modules/auth/auth.service.ts:88-90 | A decimal string whose value is in [100000, 999999). |
| Auth.EveryCodeIsDrawn | src/modules/auth/auth.service.ts:88-90 | Every code in the range is produced by some draw. |
| Auth.RefreshAcceptsExpiryInstant | src/modules/auth/auth.service.ts:156-169 | Refresh and validation disagree exactly at the expiry instant. Anything validation accepts, refresh accepts. |
| Auth.AuthService.GenerateNewRefreshToken | src/modules/auth/auth.service.ts:68-86 | A new unrevoked token for the owner expires RefreshTtl after now. Other tokens are untouched, and a repeated string is refused. |
| Auth.AuthService.Register | src/modules/auth/auth.service.ts:92-125 | An existing e-mail gives Conflict with nothing written. Otherwise one unverified 'Freelancer' is appended, with a code valid for one hour. |
| Auth.AuthService.Login | src/modules/auth/auth.service.ts:127-152 | Bad credentials, then an unverified e-mail, are refused with no token written. Otherwise a refresh token is issued to the user. |
| Auth.AuthService.RefreshToken | src/modules/auth/auth.service.ts:154-204 | Only a stored, unrevoked, unexpired token. It is revoked before its owner is inspected, so it can never be refreshed twice. A token with no owner is refused after the revocation. |
| Auth.AuthService.VerifyEmail | src/modules/auth/auth.service.ts:206-225 | A matching, unexpired code creates the 'SPY' wallet and marks the e-mail verified. Every failure surfaces as InternalServerError. |
| Auth.AuthService.SendResetPasswordEmail | src/modules/auth/auth.service.ts:257-294 | A stored unexpired code is re-sent unchanged; otherwise a new code valid for an hour is stored. A missing user gives an error. |
| Auth.AuthService.VerifyResetCode | src/modules/auth/auth.service.ts:296-308 | Accepted iff the code matches the stored one and has not expired; NotFound for a missing user. |
| Auth.ResetCodeWindow | src/modules/auth/auth.service.ts:299-305 | A newly stored code verifies up to and including its expiry instant, one hour later, and not after. |
| Notifications.RunEnd | src/modules/notifications/notification.service.ts:136 | The end of the longest run of a character class from a position. |
| Notifications.MatchAt | src/modules/notifications/notification.service.ts:136 | A match starts with `{{`, ends with `}}` and captures a non-empty word key; no match starts without `{{`. |
| Notifications.NoPlaceholderKeepsText | src/modules/notifications/notification.service.ts:135-137 | Text in which the pattern matches nowhere comes back unchanged, whatever the data. |
| Notifications.ReplacePlaceholders | src/modules/notifications/notification.service.ts:135-137 | Text without placeholders, or data whose values are all falsy, comes back unchanged. Without data the call succeeds iff the text has no placeholder. For any text cut into brace-free stretches and `{{key}}` placeholders, each placeholder, wherever it stands, becomes its value's text when that value is truthy and stays as written otherwise, and everything else is copied. |
| Notifications.KeptWholeText | src/modules/notifications/notification.service.ts:135-137 | The two cases in which the whole text comes back unchanged. |
| Notifications.MissingDataFailsOnPlaceholder | src/modules/notifications/notification.service.ts:135-137 | Without data the substitution succeeds iff the text holds no placeholder. |
| Notifications.FalsyDataKeepsText | src/modules/notifications/notification.service.ts:135-137 | When no data value is truthy, every placeholder is kept (0 and '' included) and the text is unchanged. |
| Notifications.SegmentsAreFilledAt | src/modules/notifications/notification.service.ts:135-137 | The scan from any position over segments replaces each placeholder by its truthy value, keeps it otherwise, and copies the brace-free stretches. |
| Notifications.EmbeddedPlaceholderIsReplaced | src/modules/notifications/notification.service.ts:135-137 | A placeholder inside brace-free text becomes its truthy value, and the text around it is kept. |
| Notifications.BarePlaceholderIsReplaced | src/modules/notifications/notification.service.ts:135-137 | `{{key}}` with a truthy value becomes that value's text. |
| Notifications.FirstUnsupported | src/modules/notifications/notification.service.ts:42-49 | The first channel that is not email, sms or push, or None iff all are supported. |
| Notifications.FirstUnsupportedIsFirst | src/modules/notifications/notification.service.ts:44-48 | The validation loop stops at the first unsupported channel. |
| Notifications.DeliveriesFrom | src/modules/notifications/notification.service.ts:88-101 | The sends go only to the recipient, at most one per channel, and only the e-mail send carries a subject (notification.service.ts:124-129). |
| Notifications.SendsCarryTheTexts | src/modules/notifications/notification.service.ts:118-129 | Every send carries the substituted content; the e-mail send carries the substituted subject, and the sms and push sends carry none. |
| Notifications.JobTextsAreSubstituted | src/modules/notifications/notification.service.ts:118-121 | A send's content is the template content with the placeholders replaced. Its subject is the template's subject, replaced the same way, when that subject is a non-empty string, and absent otherwise. |
| Notifications.FailureFrom | src/modules/notifications/notification.service.ts:88-107 | A failure is recorded only under stopOnFailure, and it is the error of a channel tried. None iff stopOnFailure is off or every channel delivers. |
| Notifications.NoFailureReachesEveryChannel | src/modules/notifications/notification.service.ts:88-101 | When nothing fails, every channel is sent to, in order. |
| Notifications.FailureStopsLaterChannels | src/modules/notifications/notification.service.ts:97-99 | Under stopOnFailure no channel after the first failing one is tried, and the notification fails with that channel's error. |
| Notifications.SendCheck | src/modules/notifications/notification.service.ts:70-76 | A missing template fails. The channels are the given ones or the template's, and must all be supported. |
| Notifications.PrepareData | src/modules/notifications/notification.service.ts:158-164 | The data with subject and content set to the substituted texts, other keys kept. A template without a subject throws. |
| Notifications.NotificationService.ValidateChannels | src/modules/notifications/notification.service.ts:42-49 | Accepts iff every channel is supported; otherwise names the first unsupported one. |
| Notifications.NotificationService.DeliverAll | src/modules/notifications/notification.service.ts:88-101 | The channel loop appends exactly DeliveriesFrom to the provider log, and its failure is FailureFrom. |
| Notifications.NotificationService.Store | src/modules/notifications/scheduled-notifications.service.ts:48 | The loaded row is written back in place under its id; nothing else changes. |
| Notifications.NotificationService.SaveAndDeliver | src/modules/notifications/notification.service.ts:85-109 | The pending row is saved, every channel is tried, and that same row is then rewritten as sent, or as failed with the error of the first failing channel. The provider log grows by exactly the sends made. |
| Notifications.NotificationService.SendNotification | src/modules/notifications/notification.service.ts:63-110 | A failed check writes nothing. Otherwise exactly one row is appended, sent or failed with the first failure's error. Provider failures are recorded, not raised. |
| Notifications.NotificationService.ScheduleNotification | src/modules/notifications/notification.service.ts:166-209 | Refuses a date not after now, an invalid date and a missing template, in that order. A private notification goes to the looked-up user's e-mail, any other to "all". The row is SCHEDULED, with [email] by default. |
| ScheduledNotifications.DueIds | src/modules/notifications/scheduled-notifications.service.ts:24-29 | Exactly the rows with scheduledAt ≤ now and status SCHEDULED, in table order. |
| ScheduledNotifications.Normalize | src/modules/notifications/scheduled-notifications.service.ts:84-95 | String data is parsed and becomes {} when it does not parse; other data is kept. |
| ScheduledNotifications.Emails | src/modules/notifications/scheduled-notifications.service.ts:62-72 | The addresses of all users, one per user, in table order. |
| ScheduledNotifications.Recipients | src/modules/notifications/scheduled-notifications.service.ts:55-82 | Every user's e-mail for a public row. Otherwise the one user looked up by id, or NotFound. |
| ScheduledNotifications.DispatchFailure | src/modules/notifications/scheduled-notifications.service.ts:52-82 | A due row fails iff the user lookup fails or the first send's template or channel check fails. |
| ScheduledNotifications.Processed | src/modules/notifications/scheduled-notifications.service.ts:31-49 | A processed row is SENT or FAILED, FAILED iff dispatch fails, with the error message; its other fields are kept and its data normalised. |
| ScheduledNotifications.RecordFor | src/modules/notifications/scheduled-notifications.service.ts:76-81 | The row appended for one recipient is sent or failed, has no schedule date and is addressed to that recipient. |
| ScheduledNotifications.DeliveriesFor | src/modules/notifications/scheduled-notifications.service.ts:76-81 | The sends for one recipient go to that recipient only. |
| ScheduledNotifications.FanoutDeliveries | src/modules/notifications/scheduled-notifications.service.ts:64-71 | Every provider send of the loop goes to one of the recipients. |
| ScheduledNotifications.FanoutRecords | src/modules/notifications/scheduled-notifications.service.ts:64-71 | One row per recipient, in order, each sent or failed and never scheduled. |
| ScheduledNotifications.ScheduledNotificationsService.Dispatch | src/modules/notifications/scheduled-notifications.service.ts:52-82 | Returns DispatchFailure. A failing dispatch writes nothing; otherwise each recipient gets one send. |
| ScheduledNotifications.ScheduledNotificationsService.SendTo | src/modules/notifications/scheduled-notifications.service.ts:74-82 | A send whose checks pass appends exactly RecordFor's row and DeliveriesFor's sends, with stopOnFailure at its default true. |
| ScheduledNotifications.ScheduledNotificationsService.Fanout | src/modules/notifications/scheduled-notifications.service.ts:64-71 | The per-user loop appends exactly FanoutRecords and FanoutDeliveries. |
| ScheduledNotifications.ScheduledNotificationsService.ProcessOne | src/modules/notifications/scheduled-notifications.service.ts:31-49 | One iteration writes the row back processed, and appends only rows that are never due. |
| ScheduledNotifications.ScheduledNotificationsService.HandleScheduledNotifications | src/modules/notifications/scheduled-notifications.service.ts:20-50 | Every due row is processed. Non-due rows are unchanged, appended rows are never due, and afterwards no row is due. |
| ScheduledNotifications.FanoutShape | src/modules/notifications/scheduled-notifications.service.ts:62-82 | A dispatch only appends rows that are never due, and the provider log only grows. |
| ScheduledNotifications.ProgressStep | src/modules/notifications/scheduled-notifications.service.ts:31-49 | Processing the next due row keeps the loop's picture: earlier due rows processed, the rest untouched. |
| ScheduledNotifications.NothingDue | src/modules/notifications/scheduled-notifications.service.ts:24-29 | When no row is due, the job's query selects nothing. |
| KycVerification.BeforeUpdate | src/modules/kyc/entitys/kyc-verification.entity.ts:50-55 | An approved record without a verification time gets the current one; any other is unchanged. |
| KycVerification.VerifiedAtKeepsFirstApproval | src/modules/kyc/entitys/kyc-verification.entity.ts:50-55 | Once set, the verification time is never moved by a later save. |
| KycVerification.NormalizeStatus | src/modules/kyc/services/kyc-verification.service.ts:73-78 | Accepted iff the lower-cased value is pending, approved or rejected; otherwise BadRequest. |
| KycVerification.LowerIsIdempotent | src/modules/kyc/services/kyc-verification.service.ts:73 | Lower-casing an already lower-cased status changes nothing. |
| KycVerification.NormalizeIgnoresCase | src/modules/kyc/services/kyc-verification.service.ts:73-78 | A status and its lower-cased form normalise alike. |
| KycVerification.UpperCaseApprovedIsAccepted | src/modules/kyc/services/kyc-verification.service.ts:73-78 | "APPROVED" is accepted as approved. |
| KycVerification.FirstOfUser | src/modules/kyc/services/kyc-verification.service.ts:37-46 | The user's first record, or None iff the user has none. |
| KycVerification.Erase | src/modules/kyc/services/kyc-verification.service.ts:152 | Every record of the user is deleted and every other row is kept in place. |
| KycVerification.EraseRemovesOnlyTheUser | src/modules/kyc/services/kyc-verification.service.ts:152 | After the delete the user has no record, and every other user keeps theirs. |
| KycVerification.Merge | src/modules/kyc/services/kyc-verification.service.ts:160-164 | Supplied fields win, the rest are kept, and the status is pending. |
| KycVerification.KycVerificationService.GetVerification | src/modules/kyc/services/kyc-verification.service.ts:37-46 | The user's record, or NotFound iff the user has none. |
| KycVerification.KycVerificationService.CreateVerification | src/modules/kyc/services/kyc-verification.service.ts:26-35 | A user with a live record is refused by the unique user link. Otherwise one record is appended as supplied, without a verification time. At most one live record per user is kept. |
| KycVerification.KycVerificationService.DeleteVerificationAndImages | src/modules/kyc/services/kyc-verification.service.ts:120-153 | NotFound with nothing changed, or exactly the user's records deleted. |
| KycVerification.KycVerificationService.UpdateVerificationStatus | src/modules/kyc/services/kyc-verification.service.ts:54-118 | An empty status gives BadRequest, a missing record NotFound, an invalid status BadRequest. Approving or rejecting first sends the notice by e-mail and by push; a missing template fails the call before anything is written. Then rejected deletes the records and answers null, while approved and pending save the record through the hook. Errors write no record. |
| KycVerification.KycVerificationService.SendOne | src/modules/kyc/services/kyc-verification.service.ts:93-104 | One notice send: a missing template gives "Template … not found" and writes nothing; otherwise one row and the sends of that one channel, addressed to the recipient and carrying the first name. |
| KycVerification.KycVerificationService.SendNotice | src/modules/kyc/services/kyc-verification.service.ts:88-106 | With the template stored, one row and the deliveries of the e-mail send, then of the push send. Otherwise "Template … not found" and nothing written. |
| KycVerification.KycVerificationService.UpdateVerification | src/modules/kyc/services/kyc-verification.service.ts:155-166 | Only the user's record changes, to the merge with status pending; NotFound otherwise. |
| KycPersonalInfo.FirstWithUsername | src/modules/kyc/services/kyc-personal-info.service.ts:31-33 | The first profile holding the username, or None iff none does. |
| KycPersonalInfo.Untaken | src/modules/kyc/services/kyc-personal-info.service.ts:28-41 | The untaken names of the list and only those, at most as many. |
| KycPersonalInfo.UntakenDistinct | src/modules/kyc/services/kyc-personal-info.service.ts:28-41 | The untaken names of a list without repeats have no repeats. |
| KycPersonalInfo.SuggestionsAreFreshAndDistinct | src/modules/kyc/services/kyc-personal-info.service.ts:28-41 | At most three suggestions, distinct and untaken, each the username followed by 1, 2 or 3 in that order. |
| KycPersonalInfo.KycPersonalInfoService.GenerateUsernameSuggestions | src/modules/kyc/services/kyc-personal-info.service.ts:28-41 | The loop returns exactly the untaken candidates, in order. |
| KycPersonalInfo.SkillId | src/modules/kyc/services/kyc-personal-info.service.ts:110-112 | A skill with that name, no earlier skill having it, or None iff there is none. |
| KycPersonalInfo.Resolve | src/modules/kyc/services/kyc-personal-info.service.ts:109-120 | The skill table only grows, and each requested name gets one id. |
| KycPersonalInfo.ResolveNames | src/modules/kyc/services/kyc-personal-info.service.ts:109-120 | Every requested name resolves to a skill of that name. |
| KycPersonalInfo.ResolveAddsOnlyRequested | src/modules/kyc/services/kyc-personal-info.service.ts:113-118 | The table grows only by requested names. |
| KycPersonalInfo.NewSkills | src/modules/kyc/services/kyc-personal-info.service.ts:122-127 | Exactly the resolved ids not yet on the job, order kept. |
| KycPersonalInfo.SkillIndex | src/modules/kyc/services/kyc-personal-info.service.ts:235-241 | The position of the first skill with that name, or None iff there is none. |
| KycPersonalInfo.RemoveAt | src/modules/kyc/services/kyc-personal-info.service.ts:249 | The element at k is removed and the others keep their order. |
| KycPersonalInfo.RemovingKeepsLaterCopies | src/modules/kyc/services/kyc-personal-info.service.ts:235-249 | Removing by name takes out one occurrence: a skill listed twice is still listed. |
| KycPersonalInfo.SensitiveChange | src/modules/kyc/services/kyc-personal-info.service.ts:173-196 | Every patch that changes the stored profile is a sensitive change, and so is any patch supplying a date of birth or a job name. |
| KycPersonalInfo.MergeProfile | src/modules/kyc/services/kyc-personal-info.service.ts:198-202 | Supplied fields win, the user and job link are kept, and the job name is not a column. |
| KycPersonalInfo.RestatingIsNoChange | src/modules/kyc/services/kyc-personal-info.service.ts:173-196 | Restating stored text fields is no sensitive change and leaves the profile as it is. |
| KycPersonalInfo.ClashAsWritten | src/modules/kyc/services/kyc-personal-info.service.ts:158-170 | A supplied username clashes iff another profile holds it. Without one, the first profile of the table is found and clashes unless it is the caller's. |
| KycPersonalInfo.Clash | src/modules/kyc/services/kyc-personal-info.service.ts:158-170 | Only a supplied username held by another profile clashes, and every such clash is also one as written. |
| KycPersonalInfo.CityOnlyUpdateClashesAsWritten | src/modules/kyc/services/kyc-personal-info.service.ts:158-170 | With two profiles, a city-only update of the second is refused as written and accepted as intended. |
| KycPersonalInfo.KycPersonalInfoService.GetPersonalInfo | src/modules/kyc/services/kyc-personal-info.service.ts:139-148 | The user's profile, or NotFound iff there is none. |
| KycPersonalInfo.KycPersonalInfoService.ProfileOfUser | src/modules/kyc/services/kyc-personal-info.service.ts:139-148 | The user's first profile, or None iff there is none. |
| KycPersonalInfo.KycPersonalInfoService.CreatePersonalInfo | src/modules/kyc/services/kyc-personal-info.service.ts:43-82 | A taken username is refused with the suggestions. Otherwise the job is found by name or created, and the profile saved linked to user and job. A second profile for the user is refused by the store after the job was saved. |
| KycPersonalInfo.KycPersonalInfoService.JobOf | src/modules/kyc/services/kyc-personal-info.service.ts:93-101 | The job the profile links to, when the link leads to a row. |
| KycPersonalInfo.KycPersonalInfoService.ResolveSkills | src/modules/kyc/services/kyc-personal-info.service.ts:109-120 | The loop leaves the skill table and ids that Resolve gives, and touches nothing else. |
| KycPersonalInfo.KycPersonalInfoService.AddSkillsToPersonalInfo | src/modules/kyc/services/kyc-personal-info.service.ts:84-137 | NotFound for a missing profile or job. Otherwise the job's list becomes the old list followed by the new skills. Nothing is removed or reordered, and the list is saved only when something was added. |
| KycPersonalInfo.KycPersonalInfoService.RemoveSkillFromPersonalInfo | src/modules/kyc/services/kyc-personal-info.service.ts:216-255 | NotFound for a missing profile, job or skill name, and BadRequest when the skills are not a list. Otherwise only the first skill of that name is removed. |
| KycPersonalInfo.KycPersonalInfoService.UpdatePersonalInfoAsWritten | src/modules/kyc/services/kyc-personal-info.service.ts:150-214 | As written: a clash (ClashAsWritten) is refused with suggestions. A user without a verification gets NotFound. With a sensitive change the verification is deleted, and the merged profile is saved. |
| KycPersonalInfo.KycPersonalInfoService.UpdatePersonalInfo | src/modules/kyc/services/kyc-personal-info.service.ts:150-214 | As intended: only a supplied username held elsewhere clashes. A user without a verification is updated with nothing to void. A sensitive change deletes an existing verification. |
| KycPersonalInfo.FirstOfUser | src/modules/kyc/services/kyc-personal-info.service.ts:139-148 | A profile of the user, or None iff the user has none. |
| KycPersonalInfo.FirstJobNamed | src/modules/kyc/services/kyc-personal-info.service.ts:63-65 | The first job with that name, or None iff no job has it. |
| KycPersonalInfo.EraseWithoutRecord | src/modules/kyc/services/kyc-personal-info.service.ts:173-196 | Deleting the verification of a user who has none leaves the table unchanged. |
| KycPersonalInfo.FirstJobNamedAppended | src/modules/kyc/services/kyc-personal-info.service.ts:63-72 | A job created for a missing name is the one found by that name afterwards. |
| Guards.AnyIn | src/core/guards/roles.guard.ts:45-47 | True iff some wanted role is held. |
| Guards.AllIn | src/core/guards/features.guard.ts:43-45 | True iff every wanted feature is held. |
| Guards.RolesGuard | src/core/guards/roles.guard.ts:18-58 | No declared roles admits. A missing user gives Forbidden and an unknown subject NotFound. Otherwise the caller is admitted iff they hold some declared role in the store, else Forbidden naming the roles. |
| Guards.ExtraRoleNeverDenies | src/core/guards/roles.guard.ts:45-47 | Declaring a further role never locks out an admitted caller. |
| Guards.HoldingOneRoleSuffices | src/core/guards/roles.guard.ts:45-47 | Holding one declared role admits, whatever else is declared. |
| Guards.Override | src/core/guards/features.guard.ts:20-23 | The handler's metadata, or the class's when the handler has none. |
| Guards.FeatureCheck | src/core/guards/features.guard.ts:43-51 | Admits iff every required feature is among the names; otherwise Forbidden. Object-valued features make `includes` throw. |
| Guards.FeaturesGuardAsWritten | src/core/guards/features.guard.ts:18-55 | As written: nothing required admits, and a missing user gives Forbidden. Otherwise the features checked are those of the first active subscription of any user. |
| Guards.FeaturesGuard | src/core/guards/features.guard.ts:18-55 | As intended: the features checked are those of the token's subject. |
| Guards.FewerFeaturesNeverDeny | src/core/guards/features.guard.ts:43-45 | Requiring fewer features never locks out an admitted caller. |
| Guards.AnotherUsersFeaturesAdmitAsWritten | src/core/guards/features.guard.ts:38-40 | A caller without any subscription is admitted as written on another user's active package, and refused as intended. |
| Themes.FromInput | src/modules/themes/themes.service.ts:14-17 | The theme is stored as given; it is active iff the body says isActive true. |
| Themes.FirstActive | src/modules/themes/themes.service.ts:23-25 | An active theme, or None iff no theme is active. |
| Themes.ActiveThemeIsUnique | src/modules/themes/themes.service.ts:23-25 | With at most one active theme, the one found is that theme. |
| Themes.ClearAll | src/modules/themes/themes.service.ts:28 | Every theme becomes inactive and nothing else changes. |
| Themes.ThemesService.CreateTheme | src/modules/themes/themes.service.ts:14-17 | One theme is appended as given and the others are untouched. |
| Themes.ThemesService.GetActiveTheme | src/modules/themes/themes.service.ts:23-25 | Some stored active theme, or None iff no theme is active. |
| Themes.ThemesService.SetActiveTheme | src/modules/themes/themes.service.ts:27-30 | Afterwards exactly the theme with that id is active (none when the id is missing), and nothing else changes. |
| Themes.CreatingAnActiveThemeBreaksUniqueness | src/modules/themes/themes.service.ts:14-17 | Creating an active theme while another is active leaves two active themes. |
| Themes.CreatingAnInactiveThemeKeepsUniqueness | src/modules/themes/themes.service.ts:14-17 | Creating an inactive theme keeps at most one active theme. |
| Common.DecimalString | src/modules/wallets/wallets.service.ts:228 | The decimal text of a non-negative integer, as `String(n)` writes it: at least one character, every one a digit. |
| Common.DecimalRoundTrip | src/modules/kyc/services/kyc-personal-info.service.ts:33 | Writing a number in decimal and reading it back gives the number. |
| Common.DecimalValueConcat | src/modules/wallets/wallets.service.ts:228 | Reading two digit strings written one after the other shifts the first left by the second's length. |
| Common.IntString | src/modules/kyc/services/kyc-verification.service.ts:102 | The decimal text of an integer, as toString writes it. |

## Left out

- I/O and infrastructure are not modelled:
  - sockets, presence and typing indicators;
  - JWT signing and parsing;
  - bcrypt (a `passwordMatches` parameter);
  - random draws (parameters);
  - the HTTP exchange-rate service (a rate-table parameter, used only when currencies differ);
  - e-mail, SMS and push providers (a `Deliver` parameter and an outbox log);
  - Redis, statistics, controllers, modules and the image files unlinked on a verification delete.
- Floating point: money and ratings are exact reals, with no claim about rounding.
- Time: instants are integer milliseconds. A day is 86 400 000 ms, so daylight-saving shifts in `setDate` are not modelled.
- Concurrency: the read-modify-write races on wallets and on bid counters are out of scope. Every call runs to completion before the next one starts.
- Notification sends made by the wallet, project and auth flows are left out:
  - Each of them saves a notification row and hands the message to the providers (notification.service.ts:85-109); those writes are not modelled for these flows, and most of the sends are not awaited. The two awaited notices of the KYC status update are modelled.
  - Several of their template ids are not stored as written. The wallet flows use underscores ('funds_added', 'funds_deducted', 'refund_processed', 'funds_transferred_to_freelancer') where the store uses hyphens, and 'project-testing-payment' is not stored at all. Those sends would reject with "Template … not found" without affecting the caller's result.
  - The template store is a fixed map given to the notification service.
- Messages: the Arabic error messages are rendered in English. `Lower` folds ASCII only.
- Database: constraints beyond the ones stated are not modelled. The model assumes the unique user column of profiles and of verifications, the unique token column, the user's single wallet and the enum columns; the chat room status enum is the one modelled exception (Findings).
- Wallets.WalletService.HoldFundsInEscrow: amounts are exact reals. The balance columns are integer columns and escrow is decimal(10,0) (wallets.entity.ts:20-33), so a fractional amount such as a 70/30 split is rounded on save; that rounding is not modelled. The numeric escrow sum is the corrected behaviour; the text concatenation of the code as written is under Findings.
- Wallets.EscrowMovesConserveTotal: holds for the numeric sums of the corrected hold. As written, the concatenated escrow breaks it (Wallets.HeldEscrowAsWrittenOvercounts), and the rounding of the integer columns is not modelled.
- Projects.TestingPaymentMovesWholeBid: stated over exact reals and the numeric escrow sum, as for the two lines above.
- Chat.ChatService: sendToRoom throws when the WebSocket server is not yet set (chat.service.ts:611-613). The model takes the server to be set, as the gateway does on start-up (chat.gateway.ts:28).
- Chat.NextStage: models getNextStage, whose only caller, advanceProjectStage (chat.service.ts:396-420), is commented out. No modelled operation advances a stage.
- Chat.ChatService.InitializeProjectChat: the corrected member keeps the status 'locked' of the code, as though the column's enum held it.
- Ratings.ReceivedIds: newest first is table order reversed, so ratings with equal creation times are not reordered.
- KycPersonalInfo.KycPersonalInfoService.UpdatePersonalInfo: the un-awaited reset runs the status update to 'rejected' and deleteVerificationAndImages side by side (kyc-personal-info.service.ts:200-206). Both delete the user's record; whichever comes second rejects with nothing to catch it, and main.ts registers no `unhandledRejection` handler, so on Node 15 and later that rejection ends the process. The rejection notice the first one sends is not modelled. The model keeps only the end state: the user's records erased.
- Un-awaited promises: the un-awaited KYC verification reset is modelled by its end state.
- Subscriptions.SubscriptionService: updateSubscription (a bare `Object.assign` and save) is not modelled.
- Auth.AuthService: resendVerificationCode is not modelled; it repeats register's code issue.
- Themes.ThemesService: findAll of themes is not modelled. getActiveTheme picks the first active row, but the database order is unspecified, so the model only promises some active theme.
- Subscriptions.FirstActive, Bids.FirstCurrent, Chat.FirstRoom, KycPersonalInfo.SkillId and KycPersonalInfo.ClashAsWritten: each models a lookup with no ORDER BY (subscription.repository.ts:15-21, bids.service.ts:54-61, chat.service.ts:542-545, kyc-personal-info.service.ts:110-112 and 158-160) as the first match in insertion order. These tables have uuid keys (subscription.entity.ts:13, chat-room.entity.ts:16, skill.entity.ts:6, kyc-personal-info.entity.ts:16), so the database may return another match: with two active subscriptions, the source may read either package, while the model reads the older one. Ids as table positions say nothing about that order.
- Auth.AuthService.Register and Users.UsersService.Create: register never supplies a username (auth.service.ts:107-113), and the column is NOT NULL with no default (users.entity.ts:36-37). Under MySQL's strict mode every registration would then be refused. Because create returns `save(...)` without `await` (users.service.ts:119-121), that refusal escapes its catch, and the caller gets the raw database error rather than "Failed to create user". The model has no username column and saves the user.
- src/modules/kyc/dto/update-personal-info.dto.ts is not part of this model. Its fields are taken as optional counterparts of the create body's fields.
- KycPersonalInfo.KycPersonalInfoService.AddSkillsToPersonalInfo: a job's skills are held as an id list in table order; the skills' job foreign key is not modelled.
- Guards: the Reflector metadata (handler and class roles or features) is passed as parameters.
- ScheduledNotifications.ScheduledNotificationsService.HandleScheduledNotifications: a due row whose scheduledAt is null is represented as having no date. The rows the sends append are stated by their shape (sent or failed, never due). The provider log is stated only as growing.
- Projects.ProjectService.SendProjectToTesting: the awaited send of 'project-testing-payment' is left out. That template is not stored, so even with the freelancer loaded, the call would reject with "Template project-testing-payment not found" after the money moved. The corrected member returns the project, as the code evidently intends.
- Users.UsersService: one instance is shared by every service, as NestJS injects a singleton.

## Findings

| source | as written | input that shows it | evidently intended | confidence | as-written member | corrected member |
|---|---|---|---|---|---|---|
| src/modules/projects/projects.service.ts:255-270 | The selected bid is loaded without its freelancer relation, and `bid.freelancer.id` then throws after the testing status is saved. | An in-progress project with a selected bid. | The freelancer is paid 70% and 30% is held in escrow. | high, not executed | Projects.ProjectService.SendProjectToTestingAsWritten | Projects.ProjectService.SendProjectToTesting |
| src/modules/projects/projects.service.ts:315-332 | The same unloaded relation: the project is saved completed and the payment throws. | An in-progress project with a selected bid. | The bid less the 10% fee is paid. | high, not executed | Projects.ProjectService.CompleteProjectAsWritten | Projects.ProjectService.CompleteProject |
| src/modules/projects/projects.service.ts:187-243 | The bid is loaded with its owner only, so `bid.freelancer.email` throws after every write. | A pending project with a duration, a bid and admin 3's site wallet in the bid's currency. | The call succeeds. | high, not executed | Projects.ProjectService.AcceptBidAsWritten | Projects.ProjectService.AcceptBid |
| src/modules/ratings/ratings.service.ts:46-84 | Roles are compared with 'Owner', 'freelancer' and 'owner' exactly. The system stores 'Freelancer' and 'Owner', and the request allows 'owner' and 'freelancer'. | A rater role 'freelancer' rating a user with roles ['Freelancer', 'Owner']. | Roles are compared without regard to case, so the rating is accepted. | high, not executed | Ratings.ChecksAsWrittenMissStoredRoles | Ratings.FreelancerRatesStoredOwner |
| src/modules/kyc/services/kyc-personal-info.service.ts:173-214 | The verification lookup raises NotFound, so a user without a verification can never update the profile. | A profile whose user has no verification record; any patch. | The update is applied with nothing to void. | high, not executed | KycPersonalInfo.KycPersonalInfoService.UpdatePersonalInfoAsWritten | KycPersonalInfo.KycPersonalInfoService.UpdatePersonalInfo |
| src/modules/kyc/services/kyc-personal-info.service.ts:158-170 | Without a username in the update, the lookup drops its condition and finds the first profile, so the update is refused as a clash. | Two profiles with different usernames: the second updates only its city. | Only a supplied username held by another profile clashes. | medium, not executed | KycPersonalInfo.CityOnlyUpdateClashesAsWritten | KycPersonalInfo.Clash |
| src/modules/chats/chat.service.ts:310-333, 611-617 | The message is loaded with its room and project only, and sendToRoom then reads `payload.receiver.id` of the unloaded receiver, after the reaction is saved. | Any reaction by an identified user on a stored message. | The reacted message is broadcast and returned. | high, not executed | Chat.ChatService.ReactMessageAsWritten | Chat.ChatService.ReactMessage |
| src/modules/chats/chat.service.ts:385-392 | The later rooms are saved with status 'locked', which the status enum ['active', 'closed'] does not hold (chat-room.entity.ts:28-33). Under MySQL's strict mode the second save is refused. | A project with no room yet. | All four stage rooms are created. | medium, not executed | Chat.ChatService.InitializeProjectChatAsWritten | Chat.ChatService.InitializeProjectChat |
| src/modules/ratings/ratings.service.ts:86-87 | `create(dto)` keeps only entity properties, and the entity has the `rater` and `rated` relations but no `raterId` or `ratedId` property (ratings.entity.ts:17-28). The row is stored with null links, and getRatingsForUser never returns it. | Any admitted rating request. | The rating is linked to its rater and rated user. | medium, not executed | Ratings.RatingService.CreateRatingAsWritten | Ratings.RatingService.CreateRating |
| src/modules/wallets/wallets.service.ts:228 | With mysql2 the decimal escrow column is read back as a string, so `(wallet.escrow \|\| 0) + amount` appends the amount's digits. | A hold of 30 onto a stored escrow of 100. | The escrow becomes 130. | medium, not executed | Wallets.HeldEscrowAsWrittenOvercounts | Wallets.EscrowMovesConserveTotal |
| src/core/guards/features.guard.ts:38-40 | The features are looked up by `user.id`, which the token payload does not carry. The query then drops the user condition and reads any user's active subscription. | A caller with no subscription; another user's active package has the required feature. | The caller's own features (`user.sub`) are checked. | medium, not executed | Guards.AnotherUsersFeaturesAdmitAsWritten | Guards.FeaturesGuard |
