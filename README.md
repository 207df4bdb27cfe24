# QR request forms and rewards ledger, modelled in Dafny

The system hands out "requests": records that each own a token which a QR
code embeds. A member of the public scans a code, opens the public form for
that token and submits a name, a mobile number and an optional email, at most
once per mobile and, for one-time tokens, once in all. An administrator creates
requests (singly, as a numbered batch, or as a batch of one-time codes),
lays the codes out on an A4 sheet, reviews the submissions and keeps a rewards
ledger per (name, mobile) identity: earned points, manual adjustments, a
balance floored at zero, and a "pay" action that zeroes the balance.

The model covers the SQLite store of `db.py`, the logic of `app.py` with the
Streamlit calls stripped away, and the grid arithmetic of `qr_utils.py`:

- `wrappers.dfy` (`Wrappers`): `Option` and `Result`, for `None` and raised errors.
- `text.dfy` (`Text`): `str.strip` over ASCII whitespace, substring search,
  lower-casing, decimal rendering of naturals and `int()` of decimal text.
- `tables.dfy` (`Tables`): row filters and the `ORDER BY created_at DESC`
  ordering as a sort specified by "sorted and a permutation".
- `db.dfy` (`Db`): the `requests` and `submissions` rows, their schema
  invariants (unique ids and tokens, one submission per request and phone),
  and class `Store` with one method or function per function of `db.py`.
- `ledger.dfy` (`Ledger`): the rewards ledger that `app.py` imports but
  `db.py` does not define, modelled from its uses. As written, that import
  (app.py:10-27) fails with `ImportError`, so the application does not start;
  the model supplies the ledger as if `db.py` defined it: an append-only list of
  (name, phone, points, reason) entries, sums over exact matches, clearing of
  one identity's entries.
- `settingkeys.dfy` (`SettingKeys`): the per-request setting keys
  `points_{id}` and `qr_custom_{id}`, which never collide, and how points
  are read back.
- `routing.dfy` (`Routing`): `_build_form_url`, `_get_param_value`, the
  page choice of `main`, and the query string a browser would hand back for
  a form link.
- `forms.dfy` (`Forms`): `_is_valid_email`, `_is_valid_phone` and the field
  validation of the public form.
- `publicform.dfy` (`PublicForm`): the token gate of `_public_form` and the
  submission step (insert, then count the token's use).
- `review.dfy` (`Review`): the collection of filtered submission rows of
  `_review_page` and the rewards summary grouped by exact (name, mobile).
- `rewardactions.dfy` (`RewardActions`): Add Adjustment, Pay (Zero Out) and
  Delete All Adjustments.
- `admin.dfy` (`Admin`): the create form, the batch form and the QR content
  the request list shows.
- `layout.dfy` (`Layout`): `generate_batch_qr_codes` and the placement grid of
  `create_a4_print_layout`.

Stateful code stays stateful: the store, the ledger and the A4 canvas are
classes whose methods are proved against pure specification functions, and
the loops of the source (aggregation, the Pay lookup, batch creation,
placement) are `while`/`for` loops with invariants. Tokens, the clock and the
date filter are parameters: the tokens are taken as fresh and distinct.

The model follows the code as written:
- The check-then-insert of a submission and the later use count are separate,
  non-atomic steps (app.py:594-595); they are modelled as sequential steps,
  with no claim about concurrent submitters.
- Per-request points and custom QR text live in the settings table under
  string keys, not in the request row; `SettingKeys.KeysDistinct` shows the
  keys cannot collide.
- Earned points add `max(0, points)` per submission (app.py:751), so a negative
  points setting earns nothing rather than subtracting.

Three consequences of the code as written are stated as lemmas:
- With no base URL saved, the batch form prints links on `192.168.1.12`, while
  the request list shows links on `192.168.1.4` for the same request
  (`Admin.ListedDiffersFromBatchFallback`).
- A saved base URL with a fragment and no query, such as `http://host/#app`,
  gets the form parameters appended inside the fragment, where the browser
  does not read them, so scanning the code opens the admin section
  (`Routing.FragmentBaseOpensAdmin`).
- A numbered batch made by the create form with custom text prints that text
  on every code but stores it for none, so the list shows the form link
  instead (`Admin.ListedAfterCreate`).

## Model

| member | source | states |
|---|---|---|
| Text.Strip | app.py:556-572 | the result has no leading or trailing whitespace, is no longer than the input, and is empty exactly when the input is all whitespace |
| Text.StripTrims | app.py:556-572 | the stripped text is a slice of the input with only whitespace cut from either end; with `Text.Strip` this fixes the result exactly |
| Text.StripUnpadded | app.py:556-572 | stripping a string that is already unpadded returns it unchanged, so stripping twice equals stripping once |
| Text.Contains | app.py:660-663 | `needle in hay` holds exactly when the needle occurs at some position of the haystack |
| Text.Lower | app.py:660-661 | lower-casing keeps the length and lower-cases each character in its place |
| Text.NatToString | app.py:188 | the decimal rendering is non-empty, all digits, and has no leading zero |
| Text.DecimalRoundTrip | app.py:188 | reading the decimal rendering of a natural gives that natural back |
| Text.NatToStringInjective | app.py:201 | distinct naturals render differently |
| Text.ParseIntRoundTrip | app.py:692-694 | `int()` of the rendering of a natural is that natural |
| Tables.Filter | db.py:122-129 | the kept rows are exactly the input rows satisfying the condition, with their multiplicities |
| Tables.FilterKeepsDistinct | db.py:45-54 | filtering keeps a key column unique |
| Tables.InsertNewest | db.py:125-128 | inserting into a newest-first list keeps it newest first and adds exactly the one row |
| Tables.SortNewestFirst | db.py:125-128 | the ordering is by `created_at` descending and is a permutation of its input |
| Db.FindByToken | db.py:132-136 | the lookup finds a row exactly when some row holds the token, and the row it finds holds it |
| Db.FindByTokenUnique | db.py:48-53 | with unique tokens, the lookup by a row's token returns that row |
| Db.TokenUsedMeaning | db.py:179-187 | with unique tokens, a token is used exactly when its row is one-time and counted at least once |
| Db.WithStatusIdempotent | db.py:139-142 | setting the same status twice equals setting it once |
| Db.UseCountedAddsOne | db.py:190-194 | incrementing the use count of a held token raises the total use count by exactly one |
| Db.NoTokenNoUse | db.py:190-194 | incrementing the count of a token nobody holds changes nothing |
| Db.MarkedTokenIsUsed | db.py:179-194 | after counting a one-time token's use, that token reads as used and every other token reads as before |
| Db.WithoutRequest | db.py:149 | after deleting by id, the remaining rows are exactly the old rows with another id |
| Db.WithoutSubmissionsOf | db.py:148 | after the cascade, the remaining submissions are exactly those of other requests |
| Db.DeleteKeepsRequestsValid | db.py:145-149 | deleting a request keeps ids and tokens unique and within the counter |
| Db.DeleteKeepsSubmissionsValid | db.py:145-149 | the cascade keeps submission ids unique and one submission per request and phone |
| Db.Store.constructor | db.py:30-89 | a new database has three empty tables and satisfies the schema invariants |
| Db.Store.GetSetting | db.py:92-97 | a present key returns its value and an absent key returns the supplied default |
| Db.Store.SetSetting | db.py:100-106 | after the upsert the key reads back the new value, every other key is unchanged, and the requests and submissions are untouched |
| Db.Store.CreateRequest | db.py:109-119 | a token already held fails with nothing changed; otherwise exactly one open row with a fresh id, the given fields, one-time off and no uses is appended |
| Db.Store.ListRequests | db.py:122-129 | the list holds exactly the rows of the given status, or all rows when no status is given, newest first |
| Db.Store.GetRequestByToken | db.py:132-136 | the lookup succeeds exactly when some request holds the token and returns a row holding it |
| Db.Store.UpdateRequestStatus | db.py:139-142 | only the rows with that id change, and only in their status; nothing else changes |
| Db.Store.DeleteRequest | db.py:145-149 | the submissions become exactly the old ones of other requests and the requests exactly the old ones with another id; settings and counters are untouched |
| Db.Store.DeleteSubmissionsOf | db.py:148 | the first delete keeps exactly the submissions of other requests and touches nothing else |
| Db.Store.DeleteRequestRow | db.py:149 | the second delete keeps exactly the requests with another id and touches nothing else |
| Db.Store.AddSubmission | db.py:152-169 | an existing submission with the same request and the exact same phone string fails with nothing changed; otherwise exactly one row with a fresh id and the given fields is appended |
| Db.Store.ListSubmissions | db.py:172-176 | the list holds exactly the submissions of the request, newest first |
| Db.Store.NothingListedFor | db.py:172-176 | a request without submissions lists none |
| Db.Store.IsTokenUsed | db.py:179-187 | true exactly when a request with the token is one-time and was used at least once |
| Db.Store.MarkTokenUsed | db.py:190-194 | the rows holding the token gain one use and nothing else changes |
| Db.Store.SetOneTimeUse | db.py:197-201 | only the rows with that id change, and only in their one-time flag |
| Db.Store.WipeDatabase | db.py:204-211 | settings, requests and submissions are all empty afterwards |
| Ledger.AdjustmentSumConcat | app.py:14-16 | the adjustment sum of two ledgers in sequence is the sum of their sums |
| Ledger.AdjustmentSumAppend | app.py:800-806 | appending an entry moves an identity's sum by its points exactly when it is that identity's entry |
| Ledger.NoEntriesNoSum | app.py:755-756 | an identity without entries has adjustment sum zero |
| Ledger.WithoutEntriesOf | app.py:829-836 | clearing keeps exactly the entries of other identities |
| Ledger.ClearedSums | app.py:829-836 | after clearing, the identity's sum is zero and every other identity's sum is unchanged |
| Ledger.Balance | app.py:758 | the balance is never negative, is at least earned plus adjustments, and is either zero or exactly that sum |
| Ledger.RewardLedger.GetAdjustmentSum | app.py:755-756 | an identity with no entries has sum zero |
| Ledger.RewardLedger.AddRewardEntry | app.py:800-806 | the entry is appended; the identity's sum moves by its points and every other sum stays |
| Ledger.RewardLedger.ClearRewardEntries | app.py:829-836 | the identity's entries go and its sum becomes zero; other identities keep their sums |
| SettingKeys.KeysDistinct | app.py:188-191 | points keys and custom-text keys are injective in the id, never equal each other, and never equal `base_url` |
| SettingKeys.PointsRoundTrip | app.py:691-695 | points stored as text read back as the same number |
| Routing.BuildFormUrl | app.py:46-48 | the link is the base, then `&` if the base contains `?` and `?` otherwise, then `view=form&token=` and the token |
| Routing.GetParamValue | app.py:51-56 | an absent key or an empty list gives nothing; a string gives itself; a list gives its first element |
| Routing.Route | app.py:876-886 | the public form opens exactly when `view` is `form` and the token is non-empty; the review page opens exactly when `view` is `review`; otherwise the admin section |
| Routing.SplitOnLast | app.py:46-48 | splitting a string that ends in a separator-free part keeps that part last |
| Routing.FormUrlText | app.py:46-48 | for a base without `?`, the link is the base followed by `?view=form&token=` and the token |
| Routing.FormUrlQuery | app.py:46-48 | for a base without a fragment, the query of a form link is the base's own query followed by `view=form&token=<token>` |
| Routing.FormUrlPairs | app.py:46-48 | the query of a form link ends with the pairs `view=form` and `token=<token>` |
| Routing.LastPairsWin | app.py:876-877 | in a query whose last pairs are `view=form` and `token=<token>`, those values are the ones read |
| Routing.FormUrlOpensForm | app.py:876-882 | every form link on a base URL without a fragment, whatever query the base carries, routes to the public form for exactly its token |
| Routing.FragmentBaseOpensAdmin | app.py:46-48 | a form link on a base with a fragment and no query carries no query the browser reads, so it routes to the admin section |
| Forms.EmailShapeMeaning | app.py:35-36 | the email shape holds exactly when there is an `@` with a non-empty local part, then a `.` with a non-empty part on each side, and no other `@` or whitespace |
| Forms.EmailHasOneAt | app.py:35-36 | a well-shaped email has exactly one `@` |
| Forms.IsValidEmail | app.py:35-36 | on unpadded text, validity is exactly the email shape, and a valid email has at least 5 characters |
| Forms.DigitCount | app.py:41 | the digit count is at most the length and is zero exactly when there is no digit |
| Forms.IsValidPhone | app.py:39-43 | on unpadded text, validity is exactly 7 to 20 characters from digits, `+-()` and whitespace with 7 to 20 digits |
| Forms.PhoneNewlineAllowance | app.py:39-43 | unstripped, the regex admits a 21st character if it is a trailing newline |
| Forms.CheckName | app.py:556-562 | no error exactly when the stripped name has 2 to 100 characters, and the error names the failing rule |
| Forms.CheckPhone | app.py:564-568 | no error exactly when the stripped phone is non-empty and valid; "required" and "invalid" are told apart |
| Forms.CheckEmail | app.py:570-577 | no error exactly when the email is empty or valid and at most 100 characters; an empty email only gives a notice |
| Forms.ValidateStripped | app.py:553-580 | on stripped fields, the error list is empty exactly when name, phone and email pass, each error appears exactly when its rule fails, there are at most three, and the only notice is the missing email |
| Forms.ValidateSubmission | app.py:553-580 | the error list is empty exactly when the submission is acceptable, each error appears exactly when its rule fails, and the only notice is the missing email |
| PublicForm.GateMeaning | app.py:495-528 | the form is open exactly when the token's request is open and not a used one-time request, and the token is unknown exactly when no request holds it |
| PublicForm.UsedOneTimeTokenExpires | app.py:506-528 | once an open one-time request has been used, its token reads as expired |
| PublicForm.StoreSubmission | app.py:594-595 | a phone already on the request is refused with nothing changed; otherwise the submission gets the next id, is appended, and the token's use is counted |
| PublicForm.AcceptSubmission | app.py:553-595 | invalid input is rejected with its errors, a taken phone is refused, and either way nothing changes; otherwise the stripped submission is stored and the token's use is counted |
| PublicForm.SubmitForm | app.py:495-595 | unknown, closed and expired tokens are refused before validation, and the gate, validation and duplicate outcomes are each exact; a stored submission on a one-time token expires the token |
| Review.FilterBoundaries | app.py:659-663 | blank filters let every submission through, and a phone filter equal to the phone lets it through |
| Review.RequestRowsMeaning | app.py:687-720 | a request contributes exactly one row, with its points, per kept submission of that request |
| Review.CollectedUpToMeaning | app.py:686-720 | a row is collected from the first requests exactly when one of them yields it |
| Review.AllListed | app.py:630 | listing requests with no status filter lists every request |
| Review.CollectedFrom | app.py:684-720 | every collected row comes from some request and one of its kept submissions |
| Review.CollectedAll | app.py:684-720 | every row some request yields is collected |
| Review.CollectedMeaning | app.py:684-720 | a row is collected exactly when some request and one of its kept submissions yields it |
| Review.AppendRows | app.py:712-720 | the kept submissions are appended in order, one row each |
| Review.CollectRequest | app.py:687-720 | one pass appends exactly that request's rows and counts them |
| Review.CollectFrom | app.py:686-720 | the loop's total equals the number of rows it collected, and the rows are those of the requests in order |
| Review.CollectRows | app.py:684-720 | the collected rows are those of all requests, newest first, under the filters, and the total counts them |
| Review.NoRowsNothingEarned | app.py:746-752 | an identity with no rows earns nothing and counts no submissions |
| Review.GroupKeys | app.py:747-750 | the grouping has a key exactly for the identities that have rows, each key once, in first-seen order |
| Review.GroupLines | app.py:746-752 | each group's earned points are the sum of `max(0, points)` over its rows, and its count is its number of rows |
| Review.GroupedLine | app.py:746-752 | each group's line carries the identity, its earned points and its positive row count, with no adjustment yet |
| Review.GroupedSummary | app.py:746-758 | lines that follow the grouping in key order make a table that summarises the rows |
| Review.GroupCounts | app.py:746-752 | the submission counts of all groups add up to the number of rows |
| Review.CountsInUpdate | app.py:752 | updating one group's line changes the total count by the change in that line's count |
| Review.GroupRows | app.py:746-752 | the first loop builds exactly the grouping and its key order |
| Review.AttachAdjustments | app.py:755-758 | each line gets its identity's ledger sum and the floored balance, and the counts are kept |
| Review.Summarise | app.py:746-758 | one line per identity with rows, with its earned points, count, adjustment and balance, the counts totalling the number of rows |
| Review.ReviewSummary | app.py:741-762 | the table is empty exactly when there are no rows, lists every identity that has rows, and each line's figures match the rows and the ledger |
| Review.TotalPointsMissing | app.py:750-764 | the sort key reads `Total Points`, which no summary line has, so sorting a non-empty table fails |
| RewardActions.ListedEarned | app.py:816-820 | the looked-up figure is some listed line's earned points for the identity, or 0 when it is not listed |
| RewardActions.ListedEarnedMeaning | app.py:816-820 | on a faithful table the looked-up figure is the identity's earned points |
| RewardActions.FindEarned | app.py:816-820 | the loop returns the first matching line's earned points, or 0 |
| RewardActions.PayZeroesBalance | app.py:808-828 | after Pay the identity's balance is zero |
| RewardActions.PayIdempotent | app.py:808-828 | a second Pay adds nothing |
| RewardActions.PayLeavesOthers | app.py:808-828 | Pay leaves every other identity's adjustments unchanged |
| RewardActions.PaidIdentityShowsZero | app.py:746-828 | after Pay, the next table of the same rows shows a zero balance for the identity |
| RewardActions.PayZeroOut | app.py:808-828 | a blank name or mobile is refused and a zero balance adds nothing; otherwise exactly one `paid` entry of minus the balance is appended |
| RewardActions.AddAdjustment | app.py:799-807 | with a name and mobile, exactly one entry with the stripped fields is appended and the sum moves by the points; otherwise nothing changes |
| RewardActions.DeleteAdjustments | app.py:829-837 | with a name and mobile, the identity's entries go and its sum becomes zero; otherwise nothing changes |
| RewardActions.DeletedIdentityShowsEarned | app.py:829-837 | after deleting adjustments, the balance equals the earned points |
| Admin.AutoContentOpensForm | app.py:193-206 | an automatic code on a base without a fragment routes to the public form for its own token |
| Admin.NumberedTitlesDistinct | app.py:201 | the requests of a numbered batch have pairwise distinct titles |
| Admin.PointsSettingsMeaning | app.py:199-209 | after a run of creations, each created id's points key holds the points, and every other key is as before |
| Admin.CreatedRequestsEarnPoints | app.py:186-209 | every request the create form makes reads back the form's points on the review page |
| Admin.CreateConfigured | app.py:186-189 | one open request with a fresh id is appended with the given one-time flag, and its points key is set |
| Admin.CreateAll | app.py:199-209 | request `i` gets the `i`-th title, description and token with consecutive ids, each code gets its content, and each points key is set |
| Admin.CreateFromForm | app.py:172-209 | a blank title creates nothing; otherwise `count` open requests with the stripped title (numbered when more than one), the stripped description and the form's settings, each code with its content, and a single request's custom text kept |
| Admin.GenerateBatch | app.py:279-321 | blank custom text is refused; custom text gives `count` copies and stores nothing; otherwise `count` one-time requests worth 5 points, titled by number, each printed with its own form link |
| Admin.ListedLinkOpensForm | app.py:413-465 | without stored custom text and with no fragment in a saved base URL, the code the list shows routes to the public form for the request's own token |
| Admin.ListedMatchesCreateForm | app.py:413-453 | without custom text the list shows the link the create form printed |
| Admin.ListedAfterCreate | app.py:413-453 | a single request or one without custom text is listed with the code it was printed with; a numbered custom-text batch is listed with its form link |
| Admin.ListedDiffersFromBatchFallback | app.py:295-297 | with no base URL saved, the list's link differs from the batch form's printed link |
| Layout.BatchQrCodes | qr_utils.py:32-34 | exactly `count` images of the same data, none for a non-positive count |
| Layout.FloorDiv | qr_utils.py:55-56 | the quotient is rounded toward minus infinity for either sign of the divisor |
| Layout.GridCount | qr_utils.py:55-56 | the count is at least 1, and the computation fails exactly on a zero divisor |
| Layout.GridOf | qr_utils.py:52-56 | the grid has at least one column and one row, and fails exactly when a code's size plus spacing is zero |
| Layout.PlacementsMeaning | qr_utils.py:72-81 | exactly the first `min(n, cols * rows)` images are placed, image `i` at its grid cell |
| Layout.PositionsDistinct | qr_utils.py:76-81 | two different images never share a position |
| Layout.PlacedInsideMargins | qr_utils.py:52-81 | a placed image starts inside the margins, and ends inside the far margin on each axis where at least one code fits |
| Layout.Canvas.constructor | qr_utils.py:59 | a new canvas of the page size with nothing drawn on it |
| Layout.Canvas.Draw | qr_utils.py:84-93 | one paste is added and nothing else changes |
| Layout.PlaceImages | qr_utils.py:72-93 | the loop pastes exactly the placements and then stops |
| Layout.Canvas.DrawHeader | qr_utils.py:95-101 | the header is set and the size and pastes stay |
| Layout.CreatePrintLayout | qr_utils.py:37-103 | a zero divisor gives no canvas; otherwise a page-sized canvas with exactly the placements and, with a font, the header |

## Left out

- The Streamlit interface: rendering, session state, `st.stop`/`st.rerun`, the password login (app.py:59-76), download buttons, HTML and CSS.
- QR encoding and rasterisation, image resizing, pasting pixels, text measurement and `image_to_bytes`: foreign libraries. A `QrImage` stands for a rendered code, and a paste records only its index, corner and label.
- The millimetre-to-pixel conversions of `qr_utils.py`, which are floating point: page, code, margin and spacing sizes are integer inputs.
- The PDF export of the admin section (reportlab), and the label and header positions, which depend on font metrics.
- SQLite connection handling and the column migrations of `init_db`: the tables are modelled directly.
- `clear_db.py`, a stand-alone script repeating the three deletes of `wipe_database`.
- `uuid4().hex` token generation: tokens are parameters, assumed fresh and pairwise distinct.
- The clock: `created_at` is a natural-number timestamp passed in, ordered as the ISO strings of one format are.
- The date-range part of `_matches_filters`: it parses dates and is a parameter here.
- Concurrency: every operation runs alone, so nothing is claimed about two submitters racing for one token.
- Review.ReviewSummary: states no order of the rewards table and models it as if app.py:764 did not raise; as written, that sort keys on a field the rows never have and raises `KeyError` for any non-empty table (`Review.TotalPointsMissing`), so the table is never shown.
- RewardActions.PayZeroOut: models the Pay action as if the sort at app.py:764 did not raise and the ledger functions existed in `db.py`; as written, the Reward Actions form (app.py:765-837) is never reached: with no rows app.py:740-742 returns first, with rows the sort raises, and the ledger import fails before either.
- RewardActions.AddAdjustment: modelled under the same two assumptions as `RewardActions.PayZeroOut`, since the code as written never reaches it.
- RewardActions.DeleteAdjustments: modelled under the same two assumptions as `RewardActions.PayZeroOut`, since the code as written never reaches it.
- Error displays and the generic `except` branches that only show a message.
- Text.Strip: whitespace and digits are ASCII only; `str.strip`, `str.lower` and `int()` also accept other Unicode characters.
- Text.ParseInt: covers optional sign and decimal digits with surrounding whitespace, not the underscores `int()` also accepts.
- Db.Store.ListRequests: states nothing about the order of rows with equal `created_at`, which SQLite leaves open.
- Routing.QueryParams: models the browser's query string (after the first `?`, before the first `#`) as `&`-separated `key=value` pairs without percent-decoding, where a repeated key keeps its last value.
- The points notice of the request list (app.py:425-426), which only displays the stored value.
- Updating and deleting requests from the request list is modelled by the store's methods, not by the buttons that call them.
