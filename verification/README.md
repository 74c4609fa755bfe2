# Open CRM: verified models of sending, rendering, limiting and migrating

This project models the parts of the Open CRM API whose correctness depends on the order of things: durable
email delivery under crashes and concurrency, the HTML body of a customer email, the public rate limiter, the
migration runner, and a few smaller protocols around them. `dafny verify dfyconfig.toml` checks the whole project.

| Module | Subject |
|---|---|
| `DeliveryStore` | one durable delivery row and the operations the three stores offer on it, update by update |
| `Senders` | the three handlers that claim a row, ask their questions, call the provider and report |
| `Protocol`, `ProtocolSafety` | many requests, crashes, lost store calls, recovery passes and changes of membership in any interleaving; what every run keeps |
| `ProtocolDelivery` | a request from what its user wrote to what the provider is given; what no request may do |
| `ProtocolTruth`, `ProtocolRetry`, `ProtocolPrompt`, `ProtocolRuns` | when a recorded definite failure can be believed, exactly which retries are safe, and runs that go wrong |
| `RecoveryPass`, `ProtocolProgress` | what a batch of the recovery pass reaches, and what ends uncertainty |
| `ProtocolDisable` | exactly when a disabled sender's deliveries rest, and who may settle them |
| `ProtocolRefinement` | the interleaved machine, run undisturbed, is the senders' abstract attempt |
| `DeliveryView` | what the delivery list offers, against what the store accepts |
| `Replacement` | ordered string replacements as simultaneous substitutions |
| `EmailHtml`, `EmailReading`, `EmailMeaning`, `EmailLinks` | URL scanning, link rewriting, what a reader sees, where a click leads |
| `RateLimiter` | the bounded fixed-window limiter |
| `Migrations` | the migration runner |
| `WritePolicy` | session, role and billing checks in front of every route that can send |
| `Base64Url`, `OAuthState` | the signed sign-in state |
| `Shutdown` | the listener goroutine and the main flow |
| `LeadForm`, `Recipient`, `Text`, `Basics` | form decoding, recipient choice, string helpers, what all modules share |

## What is proved

**Delivery.** Requests are state machines over a shared map of rows, one row per idempotency key. Any store call may
fail before its commit or after it, any request may die between two steps, a provider call may be answered ambiguously
and its mail arrive at any time afterwards, a recovery pass may pick any rows at any time, users may be disabled and
appointed again, and a key may be replayed or resolved by any number of requests at once. The history of effects is a
log; an epoch of a key is the number of retries recorded for it. Over every run: two provider calls for one key never
share an epoch, so there are at most as many as one plus the recorded retries; a row that was ever claimed is
claimable again only after a later retry; every call is preceded by its own claim, a matched sender and (where asked)
a clear suppression check, and carries the one envelope ever stored under its key, although finished rows are
scrubbed; and `accepted` is never invented.

**A result about the code.** The code does not promise that `failed` means "not sent", even where a provider's definite
error can be trusted. `FailedCanLie` holds two runs. In one, a request slower than the five-minute stale limit loses
its claim to the recovery pass; its user retries, the second request delivers the mail, and the first one's late,
definite failure lands on the second one's claim. In the other, a call times out; its user looks, finds nothing sent,
and retries; the retry fails before it calls anybody, as when the account is disabled, and the first mail arrives.
`RetryIsSafeExactly` gives the exact condition, key by key: a retry keeps every failure recorded for the key true,
whatever follows, if and only if the provider has definitely rejected every call made for it and no earlier request on
it can still report a definite failure. The Sent-folder check that the store asks for (record_deliveries.go:341) and
docs/operations-runbook.md:991-997 relies on decides neither: a folder found empty does not close a call.
`AmbiguityIsNeverSafe` says so for good: after an ambiguous answer no retry of the key is ever safe again. Safe are
retries of attempts that ended before their call, or whose definite rejection went unrecorded; requests that finish
within the stale limit, on accounts not disabled under them, are not overtaken (`PromptRunsAreCalm`).

**How a delivery ends.** A pass of the recovery job takes the hundred oldest stale rows of a store and skips locked
ones. `PassClearsExactly` says which rows one pass clears, and `NothingIsStuck` that `n` passes empty a store of rows
in `sending` if and only if it holds at most `n` hundred. What they leave is `uncertain`, and `UncertaintyEndsExactly`
lists all that can end that: a resolution by somebody who, when their standing was read, was entitled to it, or the
late report of a request whose mail did arrive.

**A second result about the code.** Disabling an account is meant to put its deliveries to rest, but its transaction
sees the rows as they were when it began, and the quote store reads a resolver's standing without a lock.
`RestsExactly` gives the condition: a disabled sender's deliveries rest until the sender is appointed again if and
only if, when the account is disabled, nothing had become claimable behind the transaction's back and no request of
the sender holds a standing read earlier by which it may still reopen an uncertain quote. Both halves fail in a
concrete run: a quote is reopened after its sender was disabled, and can then be neither claimed nor settled by
anybody (`DisabledQuoteReopens`); a reply is prepared in between and sent by a disabled sender
(`DisabledSenderSends`). Where the sender holds no such standing, `OnlyAdminsSettle` says that their uncertain
deliveries are settled by other users read as owners or administrators, never by a retry, and otherwise only by a late
report of acceptance.

**Three senders, one attempt.** The record, quote and reply senders ask about account, sender and suppression in three
orders. Each method is proved against the same `Deliver`, and the interleaved machine, run for one request alone, does
what `Deliver` does (`RequestDelivers`). What that is, is said without it: `FreshRequestDelivers` follows a request
from what its user wrote, through any of the three stores, to exactly one call that carries it field by field, and to
the status the provider's word calls for. The orders make no difference; what the stores ask at the claim does, and
`SendersAgreeExactly` says for which standings and verdicts.

**A third result about the code.** When a record email is over, the store removes from its text a notice of the form
"Unsubscribe: address" (record_deliveries.go:506). The notice the program writes under customer emails has another form
(customer_email_rendering.go:116-121). `WrittenNoticeStays`: it is never removed, and the address in it stays.

**The email body.** `TrackedHtmlBody` is a loop over URL matches with a text builder; its result is proved equal to a
function of the text, and that function is then read back by an independent reader that drops tags, decodes entities
and notes links, images and line breaks. The reader sees exactly the text with its line ends made uniform, then the
footer, and loads one image, from the tracking address. Links stand on URLs of the text, every safe URL has one, at
most a hundred are tracked, tokens and targets pair up, and the click handler redirects each stored link to the target
that was shown. What a URL is, is said from the text alone: wherever one of the two schemes is followed by anything but
white space, a quote or an angle bracket, a match runs on to the first of these, and there are no other matches.

**The limiter.** The bounded table is compared, call by call and over whole histories, with an unbounded one: they
differ only in refusing a new key while all places are held by other running windows. Any `k` windows of time see at
most `(k + 1) * limit` admissions, for the limit asked for; within one window exactly the first `limit` calls are
admitted. Retry-After is the least number of whole seconds that is enough: whatever other
clients do meanwhile, the next call is admitted if and only if the window has ended and no full table crowds it out.
Two scopes can share a bucket if and only if one of them, followed by a colon, begins the other and no white space
comes next.

**Migrations.** Over any sequence of starts of any releases, with a failure at any step and commits whose outcome was
never heard, the recorded migrations are a prefix of the list and the schema is each of them run once, in order. One
undisturbed run finishes from anywhere; the next changes nothing. Whatever goes wrong, only files that the policy lets
through are ever run.

## Modelling notes

- Store operations follow the service code: completing also applies to rows already marked uncertain, failing applies
  to `sending` only, and a claim and the recovery pass both turn stale claims into `uncertain` (the pass already at
  exactly five minutes). The claims of the three stores differ, and each is its own method: the record store asks the
  role only once it is about to send and records a changed recipient as a failure, the quote store asks the role
  first and may also hold a quote back, the reply store asks neither.
- A user stands as inactive, reader, member or administrator; owners count as administrators. Resolving asks for an
  active member, and of records and replies for a writing role; disabling an account fails its `prepared` rows and
  makes its `sending` rows uncertain.
- Store operations that lock the membership they read (`FOR SHARE`) read and write in one step. The quote store's
  resolution reads it without a lock (quote_deliveries.go:478-481), so there the read is a step of its own and the
  request carries the standing to its write. Disabling is a serializable transaction (users/lifecycle.go:91): it begins
  with the rows of that moment, writes to those of them that were claimable or being sent, and fails without effect if
  one of these, or the membership, has changed since; its repetition is another such transaction.
- A definite error of the provider is taken at its word: mail so rejected never arrives. The code counts as definite
  every answer of Gmail outside 200 to 299 and every answer of Microsoft but 202, server errors included
  (apps/api/internal/modules/mailboxsync/oauth_send.go:85-87 and 125-132), and every error before the body is written
  over SMTP; where a provider reports an error for mail it has taken, `failed` is wrong at once. Mail of a call in
  progress arrives with its answer or its request's death; mail of any other call that was not rejected may arrive at
  any time.
- A record email that is accepted or failed loses its HTML, its unsubscribe address and, of its text, a notice of one
  form. Each store cleans what it is given in its own way (white space, letter case); the message id is taken as
  generated.
- In runs of the protocol a recovery pass may pick any set of rows, so what is safe does not hang on the batch; what
  makes progress does, and there the batch, the order and the locked rows are explicit.
- The answers of the mailbox, suppression, session and billing services, URL parsing, path escaping, the keyed hash,
  JSON, random tokens and clocks are inputs. Where a theorem needs something of them (tokens never repeat, a payload
  survives serialisation) it says so in a `requires`.
- A route is a verb and a path cut at its slashes. "Contains ` /api/`" therefore reads "starts with `api` and goes on".
- A database schema is any state that SQL text acts on, possibly by being refused.
- URL characters are those of the pattern, in characters rather than bytes; text is assumed to be valid Unicode.

## Model

| member | source | states |
|---|---|---|
| DeliveryStore.RowStore.ClaimRecordDelivery | apps/api/internal/modules/emailmessages/record_deliveries.go:231-307 | A record claim: only the row's own sender, stale claims become uncertain whatever the role, then a writing role is asked, a changed record or recipient fails and scrubs the row, and only a prepared row is moved to sending and handed out |
| DeliveryStore.RowStore.ClaimQuoteDelivery | apps/api/internal/modules/deals/quote_deliveries.go:277-392 | A quote claim: the writing role is asked first, a quote awaiting approval is left alone, one that changed is failed and refused |
| DeliveryStore.RowStore.ClaimReply | apps/api/internal/modules/emailmessages/replies.go:207-248 | A reply claim asks for the sender alone: it is the common claim for every standing and verdict |
| DeliveryStore.RowStore.Complete | apps/api/internal/modules/emailmessages/record_deliveries.go:475-529 | Acceptance may be recorded from sending or uncertain, is idempotent, is refused from prepared and failed, and scrubs a record email |
| DeliveryStore.RowStore.Fail | apps/api/internal/modules/emailmessages/record_deliveries.go:332-375 | A failure is recorded on a sending row only; a definite one scrubs a record email, an uncertain one keeps it |
| DeliveryStore.RowStore.Resolve | apps/api/internal/modules/emailmessages/record_deliveries.go:377-442 | Only an uncertain row is resolved, by an active member (with a writing role unless it is a quote) who is its sender or an administrator, a retry by its sender alone; settling scrubs a record email |
| DeliveryStore.RowLifetime | apps/api/internal/modules/emailmessages/record_deliveries.go:231-552 | Over every sequence of operations identity stays, the envelope stays until the row is over and is at most scrubbed then, accepted and failed are final, and a row that left prepared returns there only by a retry of its own sender, read as an active member |
| DeliveryStore.FromPrepared | apps/api/internal/modules/emailmessages/record_deliveries.go:246-307 | For every change to a claimable row: which claims of which store take it, which fail it, and that disabling fails it; nothing else touches it |
| DeliveryStore.FromSending | apps/api/internal/modules/emailmessages/record_deliveries.go:250-257 | For every change to a row being sent: acceptance, definite failure, and the four ways to uncertainty, with five minutes to the second; nothing else touches it |
| DeliveryStore.FromUncertain | apps/api/internal/modules/emailmessages/record_deliveries.go:391-424 | For every change to an uncertain row: late acceptance and the resolutions of the entitled, spelled out by standing; nothing else touches it |
| DeliveryStore.ClaimAnswers | apps/api/internal/modules/deals/quote_deliveries.go:284-392 | Which claims are answered in each store, that a claim hands out exactly the row it takes, and that a refusal changes nothing but an expired quote |
| DeliveryStore.ReportAnswers | apps/api/internal/modules/emailmessages/record_deliveries.go:475-552 | Reports and resolutions are answered exactly when they have their effect, and only a retry hands the row out again |
| DeliveryStore.FinishedEmailsAreScrubbed | apps/api/internal/modules/emailmessages/record_deliveries.go:503-512 | A finished record email has neither HTML nor unsubscribe address, and of its text all but a notice of the form removed |
| DeliveryStore.WrittenNoticeStays | apps/api/internal/app/customer_email_rendering.go:116-121 | The notice the program writes under an email is not of that form and stays |
| Senders.SendRecordEmailDelivery | apps/api/internal/app/contact_email_handlers.go:384-449 | The record sender, with ignored store errors, leaves the row and makes the calls of the common abstract attempt; test emails skip the suppression list |
| Senders.SendDealQuoteIntent | apps/api/internal/app/deal_quotes_handlers.go:260-332 | The quote sender, which asks about suppression first, does exactly the same |
| Senders.SendEmailReply | apps/api/internal/app/email_replies_handlers.go:206-275 | So does the reply sender, which asks about suppression in between |
| Senders.FinishDelivery | apps/api/internal/app/contact_email_handlers.go:429-448 | The provider's word is recorded; an acceptance that cannot be recorded is reported uncertain |
| Senders.AttemptCallsExactly | apps/api/internal/app/contact_email_handlers.go:384-428 | For each sender: one call, carrying the stored recipient, subject, text and message id (records also the HTML and unsubscribe address, replies the thread), if and only if the claim takes the row, the mailbox is the sender's and suppression, where asked, is clear; otherwise none |
| Senders.AttemptEndsAs | apps/api/internal/app/contact_email_handlers.go:424-449 | An undisturbed attempt ends accepted, failed or uncertain as the provider says, failed without a call on an unfavourable answer, and uncertain when an acceptance could not be recorded |
| ProtocolSafety.ChecksAreComplete | apps/api/internal/app/email_replies_handlers.go:206-253 | In each of the three orders every question is asked once, the account before the sender match, suppression exactly when it applies |
| ProtocolSafety.RunKeeps | apps/api/internal/app/contact_email_handlers.go:287-449 | The invariant linking rows, requests in progress and the history holds after every run |
| ProtocolSafety.CallsAreDistinct | apps/api/internal/modules/emailmessages/record_deliveries.go:231-307 | No two provider calls for a key fall between the same two retries |
| ProtocolSafety.CallsArePaidFor | apps/api/internal/app/record_email_delivery_operations_handlers.go:83-96 | At most one provider call per key, plus one per recorded retry, over every interleaving, crash, replay and lost store call |
| ProtocolSafety.AmbiguityNeedsRetry | apps/api/internal/app/contact_email_handlers.go:424-448 | A row is claimable only in an epoch later than every claim and call so far: ambiguity is never retried silently |
| ProtocolSafety.CallsAreCleared | apps/api/internal/app/contact_email_handlers.go:398-428 | Before each call come its own claim, a matched sender and, where asked, a clear suppression check; the message carries, field by field, the only envelope ever stored under the key |
| ProtocolSafety.AcceptedIsTrue | apps/api/internal/app/contact_email_handlers.go:442-448 | Accepted means the provider took the mail or a person confirmed it |
| ProtocolSafety.OutsiderKeeps | apps/api/internal/modules/emailmessages/record_delivery_recovery.go:31-65 | Recovery passes and disabled accounts, writing any number of rows at any moment, preserve the invariant |
| ProtocolDelivery.RequestDelivers | apps/api/internal/app/contact_email_handlers.go:384-449 | A claiming request, run alone in any state of the machine, leaves the row and makes the calls of the abstract attempt |
| ProtocolDelivery.FreshRequestDelivers | apps/api/internal/app/contact_email_handlers.go:287-449 | From a writer's fresh request in any state: if the answers are favourable one call with what was written, and the status the provider's word calls for; if not, no call and a failed delivery |
| ProtocolDelivery.CallsCarryWhatWasWritten | apps/api/internal/modules/emailmessages/record_deliveries.go:118-127 | In every run each call carries, field by field, what a request of its key wrote, cleaned as its store cleans it |
| ProtocolDelivery.CallsAskSuppression | apps/api/internal/app/contact_email_handlers.go:410-423 | In every run a request with a suppression list calls only once the list has cleared the recipient in this attempt, test emails apart |
| ProtocolDelivery.OnlyWritersPrepare | apps/api/internal/modules/emailmessages/record_deliveries.go:184-190 | A delivery is prepared only by a member or administrator, under a key not in use |
| ProtocolDelivery.ReusedKeyIsRefused | apps/api/internal/modules/emailmessages/record_deliveries.go:171-175 | A request under a key that stands for a different request never gets to claim, whatever happens around it |
| ProtocolTruth.CalmRunsAreTruthful | apps/api/internal/app/contact_email_handlers.go:424-447 | For each key: if it is retried only when every call was definitely rejected and no earlier request may still report a failure, no failure recorded for it, other than on a person's word, stands for mail that has arrived in any attempt |
| ProtocolRetry.OvertakingCanLie | apps/api/internal/modules/emailmessages/record_deliveries.go:332-375 | Any retry that overtakes a request still able to fail has a continuation, without a further retry, in which delivered mail is recorded as failed |
| ProtocolRetry.RetryOfOpenCanLie | apps/api/internal/modules/mailboxsync/oauth_send.go:75-78 | So has any retry after a call that was not definitely rejected: its mail may arrive once the second attempt has failed |
| ProtocolRetry.RetryIsSafeExactly | apps/api/internal/modules/emailmessages/record_deliveries.go:332-442 | A retry of a key so far retried calmly keeps its recorded failures true in every calm continuation if and only if every call made for it was definitely rejected and no earlier request on it can still report a definite failure |
| ProtocolRetry.AmbiguityIsNeverSafe | apps/api/internal/modules/emailmessages/record_deliveries.go:338-342 | After a call that is over and was not definitely rejected, every retry of the key, however late, has a continuation that records as failed mail that arrives |
| ProtocolPrompt.PromptRunsAreCalm | apps/api/internal/modules/emailmessages/record_delivery_recovery.go:39-61 | For each key: requests that finish before their claim is stale, on accounts not disabled under them, are never overtaken; if moreover the key is retried only when every call was definitely rejected, the run is calm |
| ProtocolPrompt.FailedCanLie | apps/api/internal/modules/emailmessages/record_deliveries.go:23 | Two concrete runs from the empty system that end with delivered mail recorded as failed: one retry overtakes a slow request that has called nobody, the other overtakes nobody, with nothing arrived, after a call that timed out |
| RecoveryPass.TakeIsOldest | apps/api/internal/modules/emailmessages/record_delivery_recovery.go:44-50 | The limited, ordered query picks exactly the rows with fewer than the limit before them |
| RecoveryPass.PassClearsExactly | apps/api/internal/modules/emailmessages/record_delivery_recovery.go:44-60 | One pass makes a stale row uncertain if and only if nobody holds its lock and fewer than a batch of unlocked stale rows come before it; every other row stays as it is |
| RecoveryPass.PassesClear | apps/api/internal/modules/emailmessages/record_delivery_recovery.go:44-60 | With no new stale claims and no locks, n passes leave exactly the stale rows that do not fit into n batches |
| ProtocolProgress.NothingIsStuck | apps/api/internal/modules/emailmessages/record_delivery_recovery.go:12-65 | After every run, five minutes on, n passes of a hundred empty a store of rows in sending if and only if it has at most n hundred of them |
| ProtocolProgress.UncertaintyEndsExactly | apps/api/internal/modules/emailmessages/record_deliveries.go:384-442 | In every run an uncertain row stops being so by a resolution of somebody entitled by the standing read for it, or by the late report of a request whose mail did arrive, and by no other action |
| ProtocolProgress.ResolutionDecides | apps/api/internal/modules/emailmessages/record_deliveries.go:391-424 | For every user and resolution, unless the store fails before its commit: that user's own request, from its start to its write, settles an uncertain row as asked if the user is entitled to it and changes nothing otherwise |
| ProtocolDisable.RestsExactly | apps/api/internal/modules/users/lifecycle.go:90-147 | When an account is disabled, none of the user's deliveries is claimable or being sent in any continuation without re-appointment, if and only if nothing became claimable since the transaction began and no request of the user holds a standing it read earlier and may still reopen a delivery with |
| ProtocolDisable.DisablingSettles | apps/api/internal/modules/users/lifecycle.go:386-439 | Undisturbed, disabling fails the user's claimable deliveries, leaves those being sent uncertain, and touches nothing else |
| ProtocolDisable.ConflictUndoes | apps/api/internal/modules/users/lifecycle.go:79-90 | If the membership or a delivery it was to settle has changed since it began, disabling has no effect |
| ProtocolDisable.DisabledQuoteReopens | apps/api/internal/modules/deals/quote_deliveries.go:478-510 | A concrete run: a retry that read its user's standing before the account was disabled makes the quote claimable afterwards, and so it stays whatever happens without re-appointment |
| ProtocolDisable.QuoteIsStuck | apps/api/internal/modules/deals/quote_deliveries.go:284-313 | A claimable quote of a disabled sender is left as it is by every claim, resolution, report, recovery and disabling |
| ProtocolDisable.DisabledSenderSends | apps/api/internal/modules/users/lifecycle.go:91-103 | A concrete run: a reply prepared after the disabling began is missed by it, and the provider is called for a sender who is disabled |
| ProtocolDisable.OnlyAdminsSettle | apps/api/internal/modules/emailmessages/record_deliveries.go:391-407 | While a sender is disabled, having held no standing from before, an uncertain delivery of theirs is settled exactly by another user read as owner or administrator, deciding anything but a retry, or by the late report of a request whose mail did arrive |
| ProtocolRefinement.OrderDoesNotMatter | apps/api/internal/app/deal_quotes_handlers.go:271-290 | The three orders of questions lead to a call in exactly the same situations |
| ProtocolRefinement.RequestsRefineDelivery | apps/api/internal/app/contact_email_handlers.go:384-449 | A request stepped to its end in the concurrent machine leaves the row and makes the calls of the abstract attempt |
| ProtocolRefinement.SendersAgreeExactly | apps/api/internal/app/email_replies_handlers.go:206-275 | For each pair of stores, standing and verdict: the two senders leave the same status and call the provider equally often on every customer delivery, if and only if the stores' claims mean the same |
| DeliveryView.ViewOffersWhatIsAccepted | apps/api/internal/app/record_email_delivery_operations_handlers.go:106-116 | For a record email canRetry and canResolve are exactly the resolutions the store accepts from a writing role; without one they may offer what is refused |
| DeliveryView.OffersSettle | apps/api/internal/modules/emailmessages/record_deliveries.go:408-424 | An accepted retry makes the row claimable, any other accepted resolution is final whatever happens next |
| Replacement.ChainIsOnePass | apps/api/internal/app/customer_email_rendering.go:123-129 | Escaping and then three line-end replacements equal one left-to-right pass over the original text |
| Replacement.UnescapeEscape | apps/api/internal/app/customer_email_rendering.go:123-124 | Reading escaped text gives the text back |
| Replacement.EmbedChainIsMap | apps/web/src/lib/api.js:73-80 | Five ordered replacements equal one simultaneous per-character substitution |
| Replacement.EmbedIsReadable | apps/web/src/lib/api.js:73-80 | A reader of the embedded HTML sees exactly the original value |
| Replacement.EmbedIsInert | apps/web/src/lib/api.js:73-80 | The embedded text holds no angle bracket and no quote |
| Replacement.EscapedIsInert | apps/api/internal/app/customer_email_rendering.go:123-124 | Nor does escaped text |
| EmailHtml.FindAllIsSound | apps/api/internal/app/customer_email_rendering.go:15-71 | Every match is a URL of the pattern that cannot be extended |
| EmailHtml.FindAllIsComplete | apps/api/internal/app/customer_email_rendering.go:15-71 | Every URL in the text lies inside a match |
| EmailHtml.FindAllIsSpaced | apps/api/internal/app/customer_email_rendering.go:71-74 | Matches come in order and never overlap, so the overlap branch is dead |
| EmailHtml.EveryUrlIsFound | apps/api/internal/app/customer_email_rendering.go:15-71 | From the text alone: wherever "http://" or "https://" is followed by anything but white space, an angle bracket or a quote, that URL lies in a match that runs on to the first of these |
| EmailHtml.EveryMatchIsUrl | apps/api/internal/app/customer_email_rendering.go:15-71 | Every match begins with one of the two schemes and runs on from there to the first such character |
| EmailHtml.OnlyPunctuationIsCut | apps/api/internal/app/customer_email_rendering.go:131-137 | Exactly the sentence punctuation at the end is trimmed |
| EmailHtml.TargetIsNotEmpty | apps/api/internal/app/customer_email_rendering.go:131-137 | A matched URL keeps its scheme when punctuation is trimmed, so the empty-target branch is dead |
| EmailHtml.AppendEscapedEmailHtml | apps/api/internal/app/customer_email_rendering.go:123-129 | Appends the single-pass escape of its value |
| EmailHtml.SplitEmailBodyUrl | apps/api/internal/app/customer_email_rendering.go:131-137 | Splits a URL before its trailing punctuation and loses nothing |
| EmailHtml.PlanLink | apps/api/internal/app/customer_email_rendering.go:80-88 | How one safe URL is linked, and the tracked link recorded with it |
| EmailHtml.HandleMatch | apps/api/internal/app/customer_email_rendering.go:71-92 | One turn of the loop, skipped or not, keeps written and pending text adding up to the whole body |
| EmailHtml.TrackedHtmlBody | apps/api/internal/app/customer_email_rendering.go:67-103 | The loop's HTML and links are those of the declarative plan |
| EmailReading.ReadsOnePass | apps/api/internal/app/customer_email_rendering.go:123-129 | Escaped text, in any surroundings, reads as the text with uniform line ends |
| EmailReading.ReadsRendered | apps/api/internal/app/customer_email_rendering.go:76-93 | The rendered body reads as the text with the links in their places |
| EmailReading.PageReads | apps/api/internal/app/customer_email_rendering.go:94-102 | Of the page only body, footer and the tracking image are seen; the rest reads as nothing |
| EmailMeaning.ExpectedText | apps/api/internal/app/customer_email_rendering.go:71-93 | Segment boundaries never split a CRLF: the pieces' texts join to the whole text with uniform line ends |
| EmailMeaning.PageShowsTheText | apps/api/internal/app/customer_email_rendering.go:67-103 | For every text, the reader sees the text with uniform line ends, then the footer's words, exactly the planned links and the way to unsubscribe, and loads one image from the tracking address |
| EmailMeaning.LinksAreRight | apps/api/internal/app/customer_email_rendering.go:75-89 | Each link's target is a safe URL of the text less all trailing punctuation, its href its own token's click address or the target |
| EmailMeaning.SafeUrlsAreAllLinked | apps/api/internal/app/customer_email_rendering.go:71-78 | A span is linked if and only if it is a match whose trimmed URL is safe |
| EmailLinks.TrackedLinksMatch | apps/api/internal/app/customer_email_rendering.go:81-88 | At most a hundred links are tracked; with usable tokens they are the first ones, in order, each with its own token |
| EmailLinks.SanitizedTrackedLinks | apps/api/internal/modules/emailmessages/service.go:413-432 | The loop that trims, deduplicates and bounds stored links computes its declarative form |
| EmailLinks.StoredExactly | apps/api/internal/modules/emailmessages/service.go:413-432 | What is stored are the first hundred links that are the first to say something under their token, trimmed |
| EmailLinks.NothingDropped | apps/api/internal/modules/emailmessages/service.go:413-432 | Links with tokens of their own all survive cleaning, in order |
| EmailLinks.StoringTwice | apps/api/internal/modules/emailmessages/record_deliveries.go:739 | Cleaning stored links again changes nothing |
| EmailLinks.StoredTargetsAreSafe | apps/api/internal/app/email_tracking_handlers.go:25-56 | No stored target is refused by the click handler's check |
| EmailLinks.ClickLeadsToTarget | apps/api/internal/app/email_tracking_handlers.go:25-41 | A click on any tracked link redirects to the target the reader was shown, white space at its ends aside |
| EmailLinks.ClickExactly | apps/api/internal/app/email_tracking_handlers.go:25-41 | A click redirects if and only if its token is stored with a target that is a web address, and then to that; any other is not found |
| RateLimiter.FixedWindowRateLimiter.Allow | apps/api/internal/app/http_policy.go:46-86 | One call against the bounded table: the decision and the whole new table |
| RateLimiter.FixedWindowRateLimiter.PruneExpired | apps/api/internal/app/http_policy.go:88-94 | Exactly the running windows remain |
| RateLimiter.FixedWindowRateLimiter.RejectRateLimited | apps/api/internal/app/http_policy.go:96-116 | An admitted call passes; a refusal carries the fewest whole seconds that cover the wait, at least one; a limiter that cannot answer turns the request away as unavailable and counts nothing |
| RateLimiter.BoundedRefinesUnbounded | apps/api/internal/app/http_policy.go:46-94 | One call decides like the unbounded limiter unless crowded out, keeps every running window, and keeps the table within its bound |
| RateLimiter.HistoryRefinesUnbounded | apps/api/internal/app/http_policy.go:46-94 | The same over every history with a monotone clock |
| RateLimiter.WindowBound | apps/api/internal/app/http_policy.go:60-85 | With a fixed limit and window asked for (one call a minute if not positive), any k windows of time see at most (k + 1) times that limit, whatever other keys do |
| RateLimiter.WindowAdmitsExactly | apps/api/internal/app/http_policy.go:60-85 | From the first call of a window, exactly the first limit calls of the key are admitted until the window has passed, whatever else is called; the others are told the rest of the window |
| RateLimiter.DefaultsApply | apps/api/internal/app/http_policy.go:50-55 | A limit or window that is not positive stands for one call and for one minute |
| RateLimiter.CrowdedOutWaits | apps/api/internal/app/http_policy.go:66-75 | A call that finds the table full of other running windows is refused for the length of its own |
| RateLimiter.KeysAreSeparate | apps/api/internal/app/http_policy.go:56 | Scopes without a colon share a key if and only if scope and client are the same |
| RateLimiter.ScopesClashExactly | apps/api/internal/app/http_policy.go:56 | Two different scopes have clients that share a bucket if and only if one of them and a colon begin the other and no white space comes next |
| RateLimiter.SecondsCoverTheWait | apps/api/internal/app/http_policy.go:109-112 | The header is the least number of whole seconds covering the wait |
| RateLimiter.RetryAfterIsSound | apps/api/internal/app/http_policy.go:76-85 | After an over-limit refusal the next call is admitted exactly from the end of the window on, so waiting as told is enough |
| RateLimiter.RetryAmongOthers | apps/api/internal/app/http_policy.go:66-85 | After an over-limit refusal and any calls of other clients, the next call is admitted if and only if the window has ended and the call is not crowded out |
| RateLimiter.CrowdedRetry | apps/api/internal/app/http_policy.go:66-75 | A client refused for capacity is admitted next time if and only if some running window has ended |
| Migrations.PoolMigrationStore.Apply | apps/api/internal/db/migrate.go:49-67 | A migration's SQL and its record take effect together or not at all, whatever step fails, and a lost commit reply reports failure after taking effect |
| Migrations.RunMigrationsWithPolicy | apps/api/internal/db/migrate.go:83-117 | The loop's database and result, for every pattern of failures |
| Migrations.OnlyPermittedAreRun | apps/api/internal/db/migrations.go:456-476 | Whatever fails, a run records anew only files that predate declarations, are expansions without unsafe statements, or are contractions with approval |
| Migrations.CleanRunExactly | apps/api/internal/db/migrate.go:83-117 | A run in which nothing fails by itself ends well if and only if every file at its turn may be run and works or has been run already; then all are recorded |
| Migrations.RunsAreResumable | apps/api/internal/db/migrate.go:83-117 | Over any sequence of runs the recorded set stays a growing prefix and the schema is the in-order fold of each recorded migration exactly once |
| Migrations.RunKeepsPrefix | apps/api/internal/db/migrate.go:92-116 | One run keeps the prefix, and a successful one covers its whole list |
| Migrations.RecoveryIsComplete | apps/api/internal/db/migrate.go:49-117 | After any history one undisturbed run reaches the full fold, and running again applies nothing |
| Migrations.ReportIsTrue | apps/api/internal/db/migrate.go:88-116 | Applied and skipped account for the files up to where the run stopped; only the file it stopped at may be recorded unreported |
| WritePolicy.SendRoutesUnderPolicy | apps/api/internal/app/hosted_write_policy.go:13-72 | Of the routes that can send exactly the record and reply resolve routes are exempt from the route policy |
| WritePolicy.PolicyExactly | apps/api/internal/app/hosted_write_policy.go:13-72 | For every route: reading needs no subscription save one callback, and of the writes under the API exactly the listed ones, verb by verb, stay open |
| WritePolicy.Exchange.EnforceActiveSubscription | apps/api/internal/app/billing_handlers.go:44-60 | Inactive and unverifiable both stop the request; no billing service lets it pass unasked |
| WritePolicy.Exchange.RequireOrgMember | apps/api/internal/app/authorization.go:12-37 | Session, then role and billing only under the policy |
| WritePolicy.Exchange.RequireOrgAdmin | apps/api/internal/app/authorization.go:39-62 | Session, then role, then billing |
| WritePolicy.Exchange.RequireOrgWriter | apps/api/internal/app/authorization.go:64-87 | Session, then role, then billing |
| WritePolicy.Exchange.HandleResolveWithOwnCheck | apps/api/internal/app/record_email_delivery_operations_handlers.go:83-96 | The exempt resolve handlers ask billing themselves before a retry |
| WritePolicy.Exchange.ServeHttp | apps/api/internal/app/hosted_write_policy.go:44-56 | Everything one request does, from the policy's mark to the handler's last effect |
| WritePolicy.SameRetry | apps/api/internal/app/email_replies_handlers.go:190-194 | The handler's check catches every text the store would treat as a retry |
| WritePolicy.WantsSendExactly | apps/api/internal/app/record_email_delivery_operations_handlers.go:83-96 | A resolution wants a send if and only if it says retry, of one's own uncertain row, by a standing that suffices, and the store does not fail |
| WritePolicy.SendStartsExactly | apps/api/internal/app/record_email_delivery_operations_handlers.go:63-97 | A send starts if and only if the request wants one, a writer is signed in, and hosted billing, if any, was asked and said writable |
| WritePolicy.BillingIsAskedLast | apps/api/internal/app/authorization.go:64-87 | Billing is asked at most once, and exactly when session and role have passed and the route needs it |
| WritePolicy.GuardsAskInOrder | apps/api/internal/app/authorization.go:12-87 | The same order for all three guards |
| WritePolicy.GuardsAnswer | apps/api/internal/app/authorization.go:12-87 | Who gets past each guard, by role, and the status everybody else is told |
| WritePolicy.HandlersAnswer | apps/api/internal/app/record_email_delivery_operations_handlers.go:63-97 | Past its guard every request is answered or sent, with the status its case calls for |
| Base64Url.DecodeEncode | apps/api/internal/app/user_email_oauth.go:385-391 | Unpadded base64url decodes to the bytes encoded and contains no '.' |
| Base64Url.EncodesBits | apps/api/internal/app/user_email_oauth.go:385-391 | Symbols of the URL alphabet of RFC 4648: three bytes and four symbols are the same number, one and two bytes are filled up with zero bits |
| Base64Url.DecodableExactly | apps/api/internal/app/user_email_oauth.go:385-391 | What decodes: line ends aside, symbols of that alphabet, not one more than whole groups |
| OAuthState.MintedStateVerifies | apps/api/internal/app/user_email_oauth.go:335-383 | A minted state verifies to exactly its payload up to and including its last second and never after |
| OAuthState.AcceptedIsSigned | apps/api/internal/app/user_email_oauth.go:358-401 | Whatever is accepted is a payload part, the first '.', and that part's own keyed hash, unexpired and complete |
| Shutdown.OneSendOneReceive | apps/api/cmd/open_crm_api/main.go:621-634 | The goroutine sends once and never blocks; the main flow receives at most once |
| Shutdown.ErrorsAreReported | apps/api/cmd/open_crm_api/main.go:630-642 | A real listener error is lost only if shutting down itself failed |
| Shutdown.ShutdownIsReported | apps/api/cmd/open_crm_api/main.go:634-642 | A failed shutdown is reported only after one, and the listener's end is awaited only after one that worked |
| Shutdown.NeverStuck | apps/api/cmd/open_crm_api/main.go:620-643 | Unless it is at work or has returned some step is due, and every step leaves fewer |
| Shutdown.CancelledRunsEnd | apps/api/cmd/open_crm_api/main.go:630-642 | Once cancelled, at most five steps remain |
| LeadForm.DecodeLeadCaptureSubmission | apps/api/internal/app/lead_forms_handlers.go:286-314 | The loop over the posted keys in a given order |
| LeadForm.NamesOfSlots | apps/api/internal/app/lead_forms_handlers.go:291-309 | Which names fill which field |
| LeadForm.ConsentIsGranted | apps/api/internal/app/lead_forms_handlers.go:296-297 | Consent is granted by "true", "1" and "on", in any case and with white space around it |
| LeadForm.ValuesAreTheRest | apps/api/internal/app/lead_forms_handlers.go:291-312 | In every order the free values are exactly the non-empty keys that are not reserved |
| LeadForm.OrderMattersExactly | apps/api/internal/app/lead_forms_handlers.go:287-313 | The request is independent of map order if and only if no two names of one slot carry different values |
| Recipient.CompanyEmailRecipient | apps/api/internal/app/contact_email_handlers.go:206-236 | One pass finds the contact the declarative rule names |
| Recipient.ChoiceIsUnique | apps/api/internal/app/contact_email_handlers.go:206-236 | That rule leaves exactly one answer for every list and request |
| Text.TrimSpaceIdempotent | apps/api/internal/modules/emailmessages/service.go:420-421 | Trimming trimmed text changes nothing |
| Text.TrimSpaceExactly | apps/api/internal/modules/emailmessages/service.go:420-421 | Trimming cuts all white space off both ends and nothing else |
| Text.SpacesExactly | apps/api/internal/modules/emailmessages/service.go:420-421 | White space are the 25 characters with that Unicode property |
| Text.TrimLowerTrim | apps/api/internal/app/record_email_delivery_operations_handlers.go:83 | Lower-casing trimmed text leaves nothing to trim |

## Left out

- Further writes of the store operations: messages, notes and audit rows, error texts, the signature request voided with a failed quote, and the tracking token and tracked links a scrubbed row loses.
- Row locks are taken as what makes a store operation one step, and the isolation of the transaction that disables an account is modelled as far as its effect on deliveries; other anomalies of the database are not. That transaction is taken to fail on a changed value, so a row changed and changed back does not make it fail.
- The refusals of prepare (records gone, limits, unique-index races) are one nondeterministic refusal.
- A quote email's text is put together from its stored message and access link when it is sent; the model keeps the finished text in the envelope.
- RecoveryPass.PassesClear: passes in a row, with no claim going stale between them and no row locked; errors of the scheduler, which only wait for its next turn, and batch sizes a caller may pass are not modelled beyond the batch being any number.
- HTTP responses of the senders, and the difference between refusal reasons of the store; so the order in which a sender asks its questions cannot be told from what it leaves behind.
- Styling in the page: the footer's look, the pixel's size and its being hidden are carried over, and nothing is stated about them.
- EmailLinks.ClickExactly: takes it that an empty text is no web address.
- Text.TrimLowerTrim: lower-casing covers ASCII letters; the source's Unicode case folding differs on other letters.
- RateLimiter.HistoryRefinesUnbounded: assumes a monotone clock; the source reads its clock before taking its lock, so two calls may be handled in the other order.
- RateLimiter.WindowBound: assumes the same monotone clock and one limit and window per key.
- The database-backed limiter and the client-key derivation from addresses and headers.
- Migrations.RunsAreResumable: one runner at a time; the check and the apply are not one transaction, so concurrent runners are outside the model. How a file's header is parsed into its deployment class is an input.
- EmailMeaning.PageShowsTheText: characters rather than UTF-8 bytes, so invalid byte sequences and the replacement of NUL are not covered.
- EmailLinks.ClickLeadsToTarget: takes path escaping and unescaping, the click token format check and random tokens as given: the handler receives the trimmed token, and tokens never repeat.
- OAuthState.MintedStateVerifies: the keyed hash, serialisation and decoding of the configured key are parameters; unforgeability is not stated.
- LeadForm.OrderMattersExactly: form posts only; the JSON body and the merge of top-level attribution fields are not modelled.
- CORS, CSRF, cookies, telemetry, OAuth token exchange, CRUD and reports: no property beyond one branch each.
