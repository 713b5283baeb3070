# Smart helpdesk: a Dafny model of the ticket store and its agentic triage

The helpdesk is a browser application that keeps one in-memory store of
users, tickets, knowledge-base articles, agent suggestions, audit entries
and a configuration. The repository has two front-ends over that store, and
this project models the core of both:

- `app_1.js` (module `Frontend`). A new ticket is opened and then run through
  the agentic triage (`performAgenticTriage`):
  1. a keyword classifier (`classifyTicket`, module `Classifier`);
  2. a knowledge-base retriever (`retrieveKBArticles`, module `Retriever`);
  3. a reply composer (`generateReply`, module `Composer`);
  4. an agent suggestion is recorded;
  5. the ticket is either auto-resolved (the draft confidence reaches the
     configured threshold while auto-close is on) or handed to the first
     agent.

  Classification, retrieval, drafting and the auto-close or (when an agent
  exists) the hand-over are written to the audit log (`addAuditLog`) under
  the suggestion's trace id. Storing the suggestion writes no entry, and the
  TICKET_CREATED entry written before the run has a trace id of its own.
- `backend/app.js` (module `Backend`). A new ticket is marked `triaged` at
  once and answered with one canned reply chosen by a keyword test
  (`generateQuickAIResponse`). No audit entries are written.

Both front-ends also implement the same lookups, sign-in and registration,
replies, article editing and deletion, ticket-list filtering and dashboard
counters. Their shared pure logic lives in module `Store`. JavaScript
built-ins the code relies on are written out in `Text` and `Seqs`:
`includes`, `toLowerCase`, `trim`, `length`, `split`, `join`, `String(n)`, `filter`,
`map` and `find`.

The form of the model follows the code:
- The store is a class with one `seq` field per collection. Each operation is
  a method whose `modifies` clause names the fields it changes and whose
  `ensures` states the whole new state.
- The classifier, retriever and composer are methods with loops, each proved
  equal to a reference function (`Classify`, `Retrieve`, `Compose`). The
  properties are proved as lemmas about those functions.
- One triage run is also a function of the store (`Frontend.Triage`).
  `PerformAgenticTriage` is proved to leave the store exactly as `Triage`
  says. The lemmas about `Triage` state what a run does.

Clock readings are parameters: `Date.now()` is `now` and the ISO time stamp
is `stamp`. So are the values read from form fields and the answer to the
confirmation dialog. A JavaScript exception raised before anything is
mutated is an `Err` result that leaves the store unchanged. Examples are a
ticket that is not found and a `currentUser` that is `null`.

## Model

| member | source | states |
|---|---|---|
| Text.Utf16Length | app_1.js:746 | `length` counts UTF-16 code units: at least the number of characters, at most twice it, and equal to it exactly when no character lies beyond the Basic Multilingual Plane |
| Text.Utf16LengthAstral | app_1.js:746 | two letters and an emoji have length 4, so such a word counts as longer than three |
| Seqs.FilterCount | app_1.js:1183 | (helper for RemoveArticleSpec) a filter keeps every copy of a matching element and none of any other |
| Classifier.ClassifyTicket | app_1.js:707-733 | the loop over billing, tech and shipping returns the reference classification of the lower-cased `title description` text |
| Classifier.CountOccurringZero | app_1.js:720 | the number of trigger words found is at most the number of words, and zero exactly when none occurs in the text |
| Classifier.BestSoFarComplete | app_1.js:716-725 | after the three categories the loop's maximum and category are the first maximum of the three counts |
| Classifier.ConfidenceRange | app_1.js:727 | the confidence formula lies in [0.3, 0.9] and is 0.3 exactly for a zero count |
| Classifier.ClassifyConfidenceBounds | app_1.js:727 | every classification has confidence in [0.3, 0.9] |
| Classifier.ClassifyOtherIff | app_1.js:710-727 | a ticket is `other` exactly when no trigger word occurs, and exactly then its confidence is 0.3 |
| Classifier.WinnerFirstMaximum | app_1.js:719-725 | the winner holds the maximal count, every earlier category has a strictly smaller count, and `other` wins only when all counts are zero |
| Classifier.ClassifyFirstMaximum | app_1.js:708-727 | the classifier's category is the first category with the maximal keyword count |
| Classifier.ClassifyRefundOnly | app_1.js:711-727 | a text whose only trigger word is "refund" is billing with confidence 0.45 |
| Retriever.ScaledRange | app_1.js:758 | `min(score / 10, 1)` lies in [0, 1], is positive exactly for a positive raw score, and is 1 from 10 points on |
| Retriever.ScoreArticle | app_1.js:740-758 | the two counting loops compute the article's reference score, which lies in [0, 1] |
| Retriever.ScoreAll | app_1.js:739-759 | scoring keeps one entry per article, in article order, each paired with its own score |
| Retriever.ScorePublished | app_1.js:739-759 | the scoring loop yields exactly the scored list of the published articles |
| Retriever.RetrieveKBArticles | app_1.js:735-765 | the method returns the reference retrieval: positively scored published articles, stably sorted by descending score, first three |
| Retriever.WithScoreAppend | app_1.js:763 | the entries of one score in a concatenation are those of each part, in order |
| Retriever.InsertDescPerm | app_1.js:763 | inserting into the sorted list adds exactly the new entry |
| Retriever.InsertDescSorted | app_1.js:763 | inserting keeps the list in non-increasing score order |
| Retriever.InsertDescStable | app_1.js:763 | the inserted entry goes in front of every entry with the same score |
| Retriever.SortDescPerm | app_1.js:763 | the descending sort is a permutation |
| Retriever.SortDescSorted | app_1.js:763 | the descending sort yields non-increasing scores |
| Retriever.SortDescStable | app_1.js:763 | the sort is stable: the entries of each score keep their order |
| Retriever.SortDescSpec | app_1.js:763 | the sort is ordered, a permutation and stable |
| Retriever.CandidateSpec | app_1.js:737-762 | every candidate is a published article of the knowledge base with its own score, which lies in (0, 1] |
| Retriever.SortedTake | app_1.js:763-764 | cutting a sorted list keeps the front sorted, splits the elements, leaves nothing behind that outscores the front, and keeps a per-score prefix |
| Retriever.RetrieveSound | app_1.js:735-765 | at most three entries come back, each a published article of the knowledge base with its own score in (0, 1] |
| Retriever.TopScoredSpec | app_1.js:761-764 | sort-then-slice keeps min(n, 3) entries from the input, in non-increasing order; no dropped entry outscores a kept one; ties keep the input order |
| Retriever.RetrieveTop | app_1.js:735-765 | the retrieved entries are the best-scoring candidates in the sense of TopScoredSpec |
| Composer.ArticleIds | app_1.js:797 | the citations are the article ids of the retrieved entries, position by position |
| Composer.Scores | app_1.js:653 | the logged scores are the retrieval scores, position by position |
| Composer.SumOf | app_1.js:790 | the `reduce` loop sums the scores |
| Composer.GenerateReply | app_1.js:767-799 | the method builds the reference draft: template, numbered list or follow-up promise, combined confidence, citations |
| Composer.ComposeNoArticles | app_1.js:775-788 | without articles the draft is the template plus the follow-up promise and keeps the classifier's confidence |
| Composer.SumScoresBounds | app_1.js:790 | the sum of n scores in [0, 1] lies in [0, n] |
| Composer.ComposeConfidenceBounds | app_1.js:788-792 | with articles the confidence is at least the classifier's, at most 0.3 above it, and at most 0.95 |
| Composer.ItemsContains | app_1.js:779-781 | the list holds the line `n. title` of every article |
| Composer.ComposeListsArticles | app_1.js:777-797 | the draft names every retrieved article as `n. title` in retrieval order and cites exactly their ids |
| Store.FindTicket | app_1.js:970 | `find` by id gives the first ticket with the id, or none exactly when no ticket has it |
| Store.FindArticle | app_1.js:1145 | `find` by id gives the first article with the id, or none exactly when no article has it |
| Store.FindLogin | app_1.js:213 | the login lookup gives the first user with both the e-mail and the password, or none exactly when there is none |
| Store.EmailTaken | app_1.js:249 | the e-mail check holds exactly when some user has the e-mail |
| Store.FirstAgent | app_1.js:695 | the agent lookup gives the first user with role `agent`, or none exactly when there is none |
| Store.RegisterKeepsEmailsUnique | app_1.js:248-261 | appending a user whose e-mail is free keeps e-mails unique |
| Store.NextTicketIdUnused | app_1.js:606 | in a store numbered 1, 2, … no ticket has the id `String(length + 1)` |
| Store.NextTicketIdFresh | app_1.js:606-619 | after the append the tickets are still numbered, and a lookup of the new id finds the ticket just appended |
| Store.FilterStage | app_1.js:551-568 | one optional filter stage equals one combined filter |
| Store.FilterTicketsOnePass | app_1.js:548-568 | the chain of optional filters is one filter by `Listed` |
| Store.FilterTicketsSpec | app_1.js:539-571 | the list shown is a subsequence of the tickets holding exactly the tickets that pass every chosen filter |
| Store.DashboardCounts | app_1.js:386-388 | pending plus resolved counts every ticket exactly once |
| Store.RoundedPercent | app_1.js:389 | the rate is the nearest whole percentage (halves up), within [0, 100] for a share of at most the whole |
| Store.PercentAtMostHundred | app_1.js:389 | (helper for RoundedPercent) a rounded share of at most the whole is at most 100 |
| Store.DivBounds | app_1.js:389 | (helper for RoundedPercent) division of naturals brackets the dividend |
| Store.ResolutionRate | app_1.js:389 | an empty store shows the fallback rate; otherwise the rate lies in [0, 100] |
| Store.TrimmedPieceIsTag | app_1.js:1131 | a comma-free piece that trims to something non-empty trims to a well-formed tag |
| Store.ParseTagsWellFormed | app_1.js:1131 | every parsed tag is non-empty, comma-free and has no white space at either end |
| Store.Spaced | app_1.js:1112 | each tag gains exactly one leading space |
| Store.CommaSpace | app_1.js:1112 | (helper for ParseJoinedTags) the separator `", "` is a comma and a space |
| Store.JoinSpaced | app_1.js:1112 | a space before a `", "`-join equals a `","`-join of the space-prefixed tags |
| Store.SpaceAfterFirst | app_1.js:1112 | the pieces between the commas of the editor's join are the tags, all but the first behind a space |
| Store.JoinCommaSpace | app_1.js:1112 | the editor's `", "`-join is the `","`-join of those pieces |
| Store.SpaceAfterFirstNoComma | app_1.js:1112 | those pieces hold no comma |
| Store.TrimSpaceAfterFirst | app_1.js:1131 | trimming those pieces gives back the tags |
| Store.ParseJoinedTags | app_1.js:1112-1131 | saving the editor's joined tags unchanged parses back to exactly the same tags |
| Store.RemoveArticleSpec | app_1.js:1183 | deletion keeps, in order, exactly the articles with another id, every copy of a repeated one included, and no article with the id |
| Frontend.Logged | app_1.js:1278-1290 | logging n events adds n entries |
| Frontend.LoggedSpec | app_1.js:1278-1290 | logging keeps the old entries and appends one entry per event, numbered on from the old log |
| Frontend.LoggedSnoc | app_1.js:1278-1290 | logging one more event appends exactly its entry |
| Frontend.LoggedPipeline | app_1.js:648-658 | the three pipeline entries are appended in order with consecutive numbers |
| Frontend.LoggedAppend | app_1.js:648-698 | logging two batches in turn is logging them together |
| Frontend.TriageIs | app_1.js:641-705 | a run on a found ticket is the run for that ticket's pipeline result |
| Frontend.TriageNotFound | app_1.js:642-647 | a run fails exactly when no ticket has the id |
| Frontend.TriageAppended | app_1.js:619-627 | the run that follows ticket creation finds a ticket |
| Frontend.TriageAtFrame | app_1.js:660-702 | a run changes only the triaged ticket, appends one suggestion numbered on, and appends audit entries that keep the log numbered |
| Frontend.TriageFrame | app_1.js:641-705 | the frame of TriageAtFrame for the first ticket with the id |
| Frontend.TriageAtTrace | app_1.js:643-698 | the appended entries are CLASSIFIED, RETRIEVED, DRAFT, then AUTO_CLOSED or (only with an agent) ASSIGNED_TO_HUMAN, all system entries about the ticket under the suggestion's trace id |
| Frontend.TriageTrace | app_1.js:641-705 | the trace of TriageAtTrace for the first ticket with the id |
| Frontend.TriageAutoClose | app_1.js:678-690 | auto-close resolves the ticket, adds exactly one AI reply from `system` with the draft, and marks the suggestion auto-closed |
| Frontend.TriageToHuman | app_1.js:692-699 | otherwise the ticket waits for a human, gains no reply, is assigned to the first agent if any, and the suggestion is not auto-closed |
| Frontend.TriageConfidence | app_1.js:660-678 | the suggestion's confidence lies in [0.3, 0.95] and is at least the classifier's; with no articles it is the classifier's and never auto-closes above threshold 0.9; at most three citations |
| Frontend.Helpdesk.constructor | app_1.js:3-9 | a loaded store with nobody signed in |
| Frontend.Helpdesk.AddAuditLog | app_1.js:1278-1290 | exactly one entry is appended, numbered on, under the given trace id or one from the clock |
| Frontend.Helpdesk.RunPipeline | app_1.js:645-658 | the three pipeline steps yield the analysis of the ticket and log its three entries |
| Frontend.Helpdesk.Decide | app_1.js:660-702 | the suggestion is appended and the ticket resolved or handed over, with the matching audit entry |
| Frontend.Helpdesk.Conclude | app_1.js:660-702 | steps 4 and 5 after the pipeline leave the store as the run for that analysis |
| Frontend.Helpdesk.TriageFound | app_1.js:643-702 | a run on the ticket found leaves the store as the reference run |
| Frontend.Helpdesk.PerformAgenticTriage | app_1.js:641-705 | the store afterwards is exactly the reference run; an unknown id is an error with nothing changed |
| Frontend.Helpdesk.OpenTicket | app_1.js:605-627 | appends the `open` ticket numbered on, logs TICKET_CREATED, then the store is the triage run on the new id |
| Frontend.Helpdesk.CreateTicket | app_1.js:580-639 | empty fields or no signed-in user change nothing; otherwise OpenTicket's outcome, with category `other` when the select is missing |
| Frontend.Helpdesk.SendReply | app_1.js:950-1011 | a non-blank reply adds exactly one human reply and one REPLY_SENT entry; the status changes only when chosen; every failure changes nothing |
| Frontend.Helpdesk.SaveArticle | app_1.js:1118-1179 | empty fields change nothing; an id updates the first article with it (or nothing); no id appends one article numbered on |
| Frontend.Helpdesk.DeleteArticle | app_1.js:1181-1188 | once confirmed, exactly the articles with the id are removed |
| Frontend.Helpdesk.Login | app_1.js:199-232 | both fields required; the matching user becomes the current user, otherwise nothing changes |
| Frontend.Helpdesk.Register | app_1.js:234-275 | all fields required, a taken e-mail refused; otherwise one end user is appended, signed in, and e-mails stay unique |
| Frontend.Helpdesk.ListTickets | app_1.js:539-571 | no signed-in user is an error; otherwise the tickets passing every chosen filter, in order |
| Frontend.Helpdesk.AiResolutionRate | app_1.js:384-389 | 0 for an empty store, otherwise the rounded share of resolved tickets in [0, 100] |
| Backend.AnyOccursIff | backend/app.js:732 | the chain of `includes` tests holds exactly when one of the words occurs |
| Backend.QuickTopicFirstMatch | backend/app.js:729-741 | the chosen reply is that of the first word list with a word in the text; the general reply is chosen only when no list matches |
| Backend.QuickWordHasKeyword | backend/app.js:732-736 | every canned-reply trigger word contains a classifier keyword of the same category |
| Backend.QuickAgreesWithClassifier | backend/app.js:729-741 | a specific canned reply is chosen only when the classifier counts a keyword of that category; a ticket the classifier files as `other` gets the general reply |
| Backend.QuickTicket | backend/app.js:687-707 | the new ticket is `triaged`, unassigned, with exactly one AI reply from `system` carrying the canned reply |
| Backend.SettingsFrom | backend/app.js:1102-1113 | a missing checkbox means on; a missing or zero threshold is 0.78 and SLA 24; other values are kept; stored numbers are never zero |
| Backend.SettingsRoundTrip | backend/app.js:1088-1113 | saving the form as the settings page fills it in gives back the configuration |
| Backend.SettingsIdempotent | backend/app.js:1102-1113 | saving the saved settings again changes nothing |
| Backend.Helpdesk.constructor | backend/app.js:3-10 | a loaded store with nobody signed in |
| Backend.Helpdesk.CreateTicket | backend/app.js:664-727 | trimmed fields required; one quick-answered ticket appended, numbered on, with category `other` when the select is missing or empty; a numbered store stays numbered and the new id finds the new ticket |
| Backend.Helpdesk.AddQuickTicket | backend/app.js:689-711 | the ticket after the checks is appended with id `String(length + 1)`; a numbered store stays numbered and the new id finds it |
| Backend.Helpdesk.SendReply | backend/app.js:842-894 | a non-blank reply adds exactly one human reply; the status changes only when chosen; no audit entry; every failure changes nothing |
| Backend.Helpdesk.SaveArticle | backend/app.js:991-1032 | as in the other front-end, with title and body trimmed |
| Backend.Helpdesk.DeleteArticle | backend/app.js:1034-1041 | once confirmed, exactly the articles with the id are removed |
| Backend.Helpdesk.Login | backend/app.js:280-314 | both fields required; the matching user becomes the current user, otherwise nothing changes |
| Backend.Helpdesk.DemoLogin | backend/app.js:156-183 | the matching user becomes the current user, otherwise nothing changes |
| Backend.Helpdesk.Register | backend/app.js:316-359 | all fields required, a taken e-mail refused; otherwise one end user is appended, signed in, and e-mails stay unique |
| Backend.Helpdesk.SaveSettings | backend/app.js:1102-1118 | the configuration becomes the form's values with their fallbacks |
| Backend.Helpdesk.ListTickets | backend/app.js:624-651 | no signed-in user is an error; otherwise the tickets passing every chosen filter, in order |
| Backend.Helpdesk.AiResolutionRate | backend/app.js:468-473 | 85 for an empty store, otherwise the rounded share of resolved tickets in [0, 100] |

## Left out

- Rendering, the DOM, toasts, notifications (`addNotification`), modals, navigation, charts and the recent-activity list with its sort by time stamp: display only.
- `localStorage` persistence (`saveData`, the stored-data reload in `initializeMockData`) and the auth token (`btoa`): storage, not logic. The seed data is a constructor argument.
- `setTimeout`, `simulateDelay` and `await`: the model runs each operation to completion. Interleavings of two pending operations are not modelled.
- The clock: `Date.now()` and `new Date().toISOString()` are the parameters `now` and `stamp`. Where the source reads the clock twice in one operation, the model uses one reading.
- Floating point: confidences and scores are exact reals. IEEE rounding (for example `0.3 + 4 * 0.15`) is not modelled. `Math.round` is computed exactly on rationals.
- `toLowerCase` lower-cases ASCII letters only.
- A string is a sequence of Unicode code points with no lone surrogates. `length` is modelled as JavaScript counts it, in UTF-16 code units (`Text.Utf16Length`), both for the `word.length > 3` test of the retriever and for the DRAFT_GENERATED length.
- A category select whose value is not one of the four categories is not modelled. `app_1.js` would store such a value, an empty one included, as it is. `trim` uses the ECMAScript white-space and line-terminator set.
- `generateReply` takes the ticket as an argument but never reads it; the model's `Compose` has no ticket argument.
- `saveSettings`, `useAISuggestion`, `editAISuggestion` and the agent dashboard of `app_1.js` are not part of this model. The saved configuration is a constructor argument of `Frontend.Helpdesk`.
- The backend store's `agentSuggestions` and `auditLogs` are not fields of `Backend.Helpdesk`: none of its modelled operations reads or writes them.
- `parseFloat` and `parseInt` themselves: `Backend.SettingsFrom` receives the parsed numbers, or none for NaN.
- Article ids are `String(length + 1)`, so they can repeat after a deletion. The model does not claim they are unique. `DeleteArticle` removes every article with the id.
- `TICKET_CREATED` is logged under a trace id of its own (`addAuditLog` without one). The model does not claim it shares the triage run's trace id.
- The audit log is append-only, but the recent-activity list sorts it in place. The model does not claim the log stays in insertion order once that list has been shown.
- Code and prose disagree in two places, and the model follows the code:
  - ASSIGNED_TO_HUMAN is logged only when an agent exists.
  - `app_1.js` does not trim a new ticket's title and description; `backend/app.js` does.
