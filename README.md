# Chucker core: interception, mock storage, transaction screen and body list

This Dafny project models the core of Chucker, an in-app HTTP inspector for OkHttp. It covers four pieces.

- **`ChuckerInterceptor`** and its `Builder` (`interception.dfy`). An intercepted call is recorded unless its encoded path is a skip path. With mocking enabled, it is answered from a stored mock whose `shouldUseMock` flag is set. Otherwise it goes down the chain; a network `IOException` is written on the record, reported to the collector and rethrown.
- **`MockHttpTransactionDatabaseRepository`** (`mock_repository.dfy`). It works over an in-memory stand-in for its Room DAO: a sequence of rows in table order. The file also has the SQL LIKE patterns of the list filter and a LIKE matcher that gives them meaning. Lookup by URL yields the first row stored for the URL.
- **`TransactionViewModel`** and its factory (`view_model.dfy`). The title, the two "requires encoding" flags and `formatRequestBody` are functions of the current record and the encode flag. The view model owns the URL-encoding toggle and writes mocks (insert or overwrite).
- **`TransactionBodyAdapter`** (`payload_adapter.dfy`). It holds the item list behind the body screen. It maps item kinds to view types, clears search highlight spans, and highlights or resets body lines. It announces the changed rows at their adapter positions.

`text.dfy` holds the ASCII case-insensitive string predicates these share. `transactions.dfy` holds the recorded call `HttpTransaction`. `wrappers.dfy` holds `Option`.

State that the source changes in place is modelled as classes: the builder, the interceptor's redaction set, the DAO table, the view model's encode flag and the adapter's items. Each routing and list operation is proved equal to a specification function, and the properties are proved about those functions.

## Model

| member | source | states |
|---|---|---|
| `Transactions.NewTransaction` | library/src/main/kotlin/com/chuckerteam/chucker/api/ChuckerInterceptor.kt:79 | The record `intercept` starts from has id 0, no error, and both mock flags off. |
| `Interception.MockResponse` | library/src/main/kotlin/com/chuckerteam/chucker/api/ChuckerInterceptor.kt:103-116 | A mock response takes the stored code, or 200 when none is stored. It takes the stored message, or "" when none is stored. Body, request URL and protocol come from the mock. |
| `Interception.SkippedRequestIsPassedThrough` | library/src/main/kotlin/com/chuckerteam/chucker/api/ChuckerInterceptor.kt:119-149 | A request whose encoded path is a skip path reaches neither processor. A network response comes back unchanged. A mocked response comes back as the bare mock response. |
| `Interception.UnmockedCallAlwaysProceeds` | library/src/main/kotlin/com/chuckerteam/chucker/api/ChuckerInterceptor.kt:83-93 | With mocking off, no mock lookup happens and the chain is always proceeded. |
| `Interception.MockHitReplacesNetwork` | library/src/main/kotlin/com/chuckerteam/chucker/api/ChuckerInterceptor.kt:84-127 | With mocking on, a stored mock whose `shouldUseMock` is set is looked up first. The chain is never proceeded and the record is marked `wasResponseMocked`. The mock response is returned, processed unless the path is skipped. If `Protocol.get` rejects the mock's protocol, its exception is thrown. |
| `Interception.MockMissBehavesAsUnmocked` | library/src/main/kotlin/com/chuckerteam/chucker/api/ChuckerInterceptor.kt:85-93 | A missing mock, or one with the flag clear, changes only the lookup call. Outcome and record equal those of the unmocked path, and `wasResponseMocked` stays false. |
| `Interception.NetworkFailureIsRecordedAndRethrown` | library/src/main/kotlin/com/chuckerteam/chucker/api/ChuckerInterceptor.kt:138-144 | When `chain.proceed` throws an `IOException`, skipped or not, the exception text is written to `error`. The collector is told once, as the last call, and the same exception is rethrown. |
| `Interception.OtherThrowableIsNotRecorded` | library/src/main/kotlin/com/chuckerteam/chucker/api/ChuckerInterceptor.kt:138-144 | When `chain.proceed` throws anything other than an `IOException`, it propagates unchanged. `error` stays unset and the collector is not told. |
| `Interception.UserDecodersComeFirst` | library/src/main/kotlin/com/chuckerteam/chucker/api/ChuckerInterceptor.kt:212-218 | The first decoded body comes from the user decoders in the order they were added. The built-in plain-text decoder is used only when all of them decline. |
| `Interception.ChuckerInterceptor.constructor` | library/src/main/kotlin/com/chuckerteam/chucker/api/ChuckerInterceptor.kt:39-64 | The interceptor copies the builder's configuration. Decoders are the user's plus plain text. A missing collector or cache directory falls back to the default. |
| `Interception.ChuckerInterceptor.RedactHeader` | library/src/main/kotlin/com/chuckerteam/chucker/api/ChuckerInterceptor.kt:72-75 | `redactHeader` adds names to the redaction set and removes none. |
| `Interception.ChuckerInterceptor.Intercept` | library/src/main/kotlin/com/chuckerteam/chucker/api/ChuckerInterceptor.kt:77-94 | `intercept` does exactly what the routing specification `InterceptRun` describes for the mock stored under the request URL. That covers outcome, record and ordered calls; its properties are stated by `SkippedRequestIsPassedThrough`, `UnmockedCallAlwaysProceeds`, `MockHitReplacesNetwork`, `MockMissBehavesAsUnmocked`, `NetworkFailureIsRecordedAndRethrown` and `OtherThrowableIsNotRecorded`. |
| `Interception.ChuckerInterceptor.ProcessMockRequest` | library/src/main/kotlin/com/chuckerteam/chucker/api/ChuckerInterceptor.kt:96-127 | `processMockRequest` equals the specification `MockRequestRun`. |
| `Interception.InterceptRun` | library/src/main/kotlin/com/chuckerteam/chucker/api/ChuckerInterceptor.kt:77-94 | The result is marked as mocked exactly when mocking is on and the stored record says to use its mock. The mock store is queried exactly when mocking is on. The network is called exactly when no mock is used. |
| `Interception.MockRequestRun` | library/src/main/kotlin/com/chuckerteam/chucker/api/ChuckerInterceptor.kt:96-127 | A mocked run never calls the network or the collector's failure path. It throws only when the stored protocol text names no known protocol. |
| `Interception.RequestRun` | library/src/main/kotlin/com/chuckerteam/chucker/api/ChuckerInterceptor.kt:129-150 | A real run always calls `chain.proceed`. It returns a response exactly when the call succeeded. It sets `error` and tells the collector exactly when the call failed with an `IOException`. |
| `Interception.ChuckerInterceptor.ProcessRequest` | library/src/main/kotlin/com/chuckerteam/chucker/api/ChuckerInterceptor.kt:129-150 | `processRequest` equals the specification `RequestRun`. |
| `Interception.Builder.constructor` | library/src/main/kotlin/com/chuckerteam/chucker/api/ChuckerInterceptor.kt:158-167 | Builder defaults: no collector, no cache directory, 250000 content characters, nothing redacted, no user decoders, shortcut on, no skip paths, mocking off. |
| `Interception.Builder.SetCollector` | library/src/main/kotlin/com/chuckerteam/chucker/api/ChuckerInterceptor.kt:172-174 | Sets the collector. |
| `Interception.Builder.MaxContentLength` | library/src/main/kotlin/com/chuckerteam/chucker/api/ChuckerInterceptor.kt:181-183 | Sets the content cap. |
| `Interception.Builder.RedactHeaders` | library/src/main/kotlin/com/chuckerteam/chucker/api/ChuckerInterceptor.kt:189-199 | `redactHeaders` replaces the redaction set by the given names. |
| `Interception.Builder.AlwaysReadResponseBody` | library/src/main/kotlin/com/chuckerteam/chucker/api/ChuckerInterceptor.kt:208-210 | Sets the flag. |
| `Interception.Builder.AddBodyDecoder` | library/src/main/kotlin/com/chuckerteam/chucker/api/ChuckerInterceptor.kt:216-218 | Appends the decoder after the earlier ones. |
| `Interception.Builder.CreateShortcut` | library/src/main/kotlin/com/chuckerteam/chucker/api/ChuckerInterceptor.kt:224-226 | Sets the flag. |
| `Interception.Builder.EnableMocking` | library/src/main/kotlin/com/chuckerteam/chucker/api/ChuckerInterceptor.kt:232-234 | Turns mocking on. |
| `Interception.Builder.CacheDirectorProvider` | library/src/main/kotlin/com/chuckerteam/chucker/api/ChuckerInterceptor.kt:241-243 | Sets the cache directory provider. |
| `Interception.Builder.SkipPaths` | library/src/main/kotlin/com/chuckerteam/chucker/api/ChuckerInterceptor.kt:245-253 | Adds the encoded path of every candidate to the skip set and keeps the earlier ones. |
| `Interception.Builder.Build` | library/src/main/kotlin/com/chuckerteam/chucker/api/ChuckerInterceptor.kt:258 | Builds a new interceptor carrying the builder's decoders (plus plain text), redaction set, mocking flag, skip paths, content cap and `alwaysReadResponseBody`. A missing collector becomes the default collector, and a missing cache directory becomes the files directory. |
| `MockRepository.FilteredTransactionQuery` | library/src/main/kotlin/com/chuckerteam/chucker/internal/data/repository/MockHttpTransactionDatabaseRepository.kt:14-25 | The code pattern is the code followed by `%`. The path pattern is `%` for an empty path, else `%`+path+`%`. The GraphQL pattern is always the path pattern. |
| `MockRepository.PercentMatchesAll` | library/src/main/kotlin/com/chuckerteam/chucker/internal/data/repository/MockHttpTransactionDatabaseRepository.kt:15 | Under SQL LIKE the pattern `%` matches every string. |
| `MockRepository.LiteralHead` | library/src/main/kotlin/com/chuckerteam/chucker/internal/data/repository/MockHttpTransactionDatabaseRepository.kt:15-17 | A wildcard-free head of a LIKE pattern matches exactly a case-insensitively equal prefix of the text. |
| `MockRepository.LeadingPercent` | library/src/main/kotlin/com/chuckerteam/chucker/internal/data/repository/MockHttpTransactionDatabaseRepository.kt:15 | A leading `%` lets the rest of the pattern match any suffix of the text. |
| `MockRepository.PrefixPattern` | library/src/main/kotlin/com/chuckerteam/chucker/internal/data/repository/MockHttpTransactionDatabaseRepository.kt:17 | A wildcard-free text followed by `%` matches exactly the strings it starts, ignoring case. |
| `MockRepository.CodeQueryMatchesPrefix` | library/src/main/kotlin/com/chuckerteam/chucker/internal/data/repository/MockHttpTransactionDatabaseRepository.kt:17 | The code filter keeps exactly the codes that start with the typed code. |
| `MockRepository.UnderscoreInCodeIsWildcard` | library/src/main/kotlin/com/chuckerteam/chucker/internal/data/repository/MockHttpTransactionDatabaseRepository.kt:17 | The typed code is not escaped. The code filter `_` keeps the code `200`, which does not start with `_`. |
| `MockRepository.PathQueryMatchesSubstring` | library/src/main/kotlin/com/chuckerteam/chucker/internal/data/repository/MockHttpTransactionDatabaseRepository.kt:15-23 | The path and GraphQL filters keep exactly the texts that contain the typed path, ignoring case. An empty path keeps everything. |
| `MockRepository.RowsWithUrl` | library/src/main/kotlin/com/chuckerteam/chucker/internal/data/repository/MockHttpTransactionDatabaseRepository.kt:61 | The rows for a URL are exactly the stored rows with that URL. |
| `MockRepository.MockHttpTransactionDatabaseRepository.GetMockedTransactionByUrl` | library/src/main/kotlin/com/chuckerteam/chucker/internal/data/repository/MockHttpTransactionDatabaseRepository.kt:60-62 | Gives nothing exactly when no stored row has the URL. Otherwise it gives the first stored row with that URL. |
| `MockRepository.MockFor` | library/src/main/kotlin/com/chuckerteam/chucker/internal/data/repository/MockHttpTransactionDatabaseRepository.kt:60-62 | The lookup is null exactly when no row has the URL; otherwise it yields a stored row with that URL. |
| `MockRepository.MockForIsFirstMatch` | library/src/main/kotlin/com/chuckerteam/chucker/internal/data/repository/MockHttpTransactionDatabaseRepository.kt:60-62 | The lookup yields the earliest row stored for the URL. |
| `MockRepository.FirstMatchExists` | library/src/main/kotlin/com/chuckerteam/chucker/internal/data/repository/MockHttpTransactionDatabaseRepository.kt:60-62 | When a row has the URL, an earliest such row exists. |
| `MockRepository.RowsWithUrlAppend` | library/src/main/kotlin/com/chuckerteam/chucker/internal/data/repository/MockHttpTransactionDatabaseRepository.kt:61 | Appending a row appends it to its own URL's matches only. |
| `MockRepository.LookupAfterAppend` | library/src/main/kotlin/com/chuckerteam/chucker/internal/data/repository/MockHttpTransactionDatabaseRepository.kt:60-62 | After inserting a record for a URL with no mock, the lookup yields it. Lookups of other URLs are unchanged. |
| `MockRepository.RowsWithUrlReplace` | library/src/main/kotlin/com/chuckerteam/chucker/internal/data/repository/MockHttpTransactionDatabaseRepository.kt:61 | Overwriting a row without changing its URL leaves every other URL's matches unchanged. |
| `MockRepository.LookupAfterReplace` | library/src/main/kotlin/com/chuckerteam/chucker/internal/data/repository/MockHttpTransactionDatabaseRepository.kt:60-62 | After overwriting the first row for a URL, the lookup yields the new record. Every other URL's lookup is unchanged. |
| `MockRepository.RowsSince` | library/src/main/kotlin/com/chuckerteam/chucker/internal/data/repository/MockHttpTransactionDatabaseRepository.kt:57 | The time-range query returns exactly the stored rows dated at or after the bound, and no more rows than stored. |
| `MockRepository.ReplaceById` | library/src/main/kotlin/com/chuckerteam/chucker/internal/data/repository/MockHttpTransactionDatabaseRepository.kt:45-47 | An update replaces the rows carrying the record's key and keeps the others. |
| `MockRepository.ReplaceByIdIsPointUpdate` | library/src/main/kotlin/com/chuckerteam/chucker/internal/data/repository/MockHttpTransactionDatabaseRepository.kt:45-47 | With distinct keys, updating by row i's key overwrites row i and nothing else. |
| `MockRepository.IsSameTransaction` | library/src/main/kotlin/com/chuckerteam/chucker/internal/data/repository/MockHttpTransactionDatabaseRepository.kt:29 | The change comparator counts a new value as the same when the previous one is null. Otherwise it asks `hasTheSameContent`. |
| `MockRepository.HttpTransactionDao.constructor` | library/src/main/kotlin/com/chuckerteam/chucker/internal/data/repository/MockHttpTransactionDatabaseRepository.kt:12 | The DAO stand-in starts with no rows. |
| `MockRepository.HttpTransactionDao.Insert` | library/src/main/kotlin/com/chuckerteam/chucker/internal/data/repository/MockHttpTransactionDatabaseRepository.kt:41 | DAO insert either appends the record under a fresh key and reports it, or stores nothing and reports null. |
| `MockRepository.HttpTransactionDao.Update` | library/src/main/kotlin/com/chuckerteam/chucker/internal/data/repository/MockHttpTransactionDatabaseRepository.kt:46 | DAO update overwrites by key and reports 1 when the key is stored, else 0. |
| `MockRepository.HttpTransactionDao.DeleteAll` | library/src/main/kotlin/com/chuckerteam/chucker/internal/data/repository/MockHttpTransactionDatabaseRepository.kt:37 | DAO delete-all empties the table. |
| `MockRepository.MockHttpTransactionDatabaseRepository.constructor` | library/src/main/kotlin/com/chuckerteam/chucker/internal/data/repository/MockHttpTransactionDatabaseRepository.kt:10-12 | The repository works on the given DAO. |
| `MockRepository.MockHttpTransactionDatabaseRepository.InsertTransaction` | library/src/main/kotlin/com/chuckerteam/chucker/internal/data/repository/MockHttpTransactionDatabaseRepository.kt:40-43 | The record is stored and gets the DAO's new key, or is not stored and gets key 0 when the DAO reports null. |
| `MockRepository.MockHttpTransactionDatabaseRepository.UpdateTransaction` | library/src/main/kotlin/com/chuckerteam/chucker/internal/data/repository/MockHttpTransactionDatabaseRepository.kt:45-47 | Update by key; returns the DAO's count of changed rows. |
| `MockRepository.MockHttpTransactionDatabaseRepository.DeleteAllTransactions` | library/src/main/kotlin/com/chuckerteam/chucker/internal/data/repository/MockHttpTransactionDatabaseRepository.kt:36-38 | Empties the table. |
| `MockRepository.MockHttpTransactionDatabaseRepository.GetTransactionsInTimeRange` | library/src/main/kotlin/com/chuckerteam/chucker/internal/data/repository/MockHttpTransactionDatabaseRepository.kt:55-58 | A null lower bound counts as 0. The result holds exactly the stored rows dated at or after the bound. |
| `TransactionViewModels.TransactionTitle` | library/src/main/kotlin/com/chuckerteam/chucker/internal/ui/transaction/TransactionViewModel.kt:24-28 | The title is "" without a record. Otherwise it is the method (`null` when missing), a space, and the path formatted under the current encode flag. |
| `TransactionViewModels.DoesUrlRequireEncoding` | library/src/main/kotlin/com/chuckerteam/chucker/internal/ui/transaction/TransactionViewModel.kt:30-38 | `doesUrlRequireEncoding` is false without a record. Otherwise it holds exactly when flipping the encode flag changes the title. |
| `TransactionViewModels.DoesRequestBodyRequireEncoding` | library/src/main/kotlin/com/chuckerteam/chucker/internal/ui/transaction/TransactionViewModel.kt:40-44 | `doesRequestBodyRequireEncoding` holds only for a record whose request content type is present and long enough to contain `x-www-form-urlencoded`. |
| `TransactionViewModels.FormatRequestBody` | library/src/main/kotlin/com/chuckerteam/chucker/internal/ui/transaction/TransactionViewModel.kt:48-51 | The body is formatted unless it requires encoding and encoding is on. |
| `TransactionViewModels.FormContentTypeWithCharsetDetected` | library/src/main/kotlin/com/chuckerteam/chucker/internal/ui/transaction/TransactionViewModel.kt:40-44 | A form content type with a charset parameter requires encoding. |
| `TransactionViewModels.DetectionIgnoresLetterCase` | library/src/main/kotlin/com/chuckerteam/chucker/internal/ui/transaction/TransactionViewModel.kt:40-44 | The form-encoding check gives the same answer for content types that differ only in letter case. |
| `TransactionViewModels.OtherContentTypesNotDetected` | library/src/main/kotlin/com/chuckerteam/chucker/internal/ui/transaction/TransactionViewModel.kt:40-44 | A JSON content type, a missing content type or a missing record does not require encoding. |
| `TransactionViewModels.TransactionViewModel.constructor` | library/src/main/kotlin/com/chuckerteam/chucker/internal/ui/transaction/TransactionViewModel.kt:18-22 | The encode flag starts false. |
| `TransactionViewModels.TransactionViewModel.EncodeUrl` | library/src/main/kotlin/com/chuckerteam/chucker/internal/ui/transaction/TransactionViewModel.kt:55-57 | `encodeUrl(b)` sets the flag to b. |
| `TransactionViewModels.TransactionViewModel.SwitchUrlEncoding` | library/src/main/kotlin/com/chuckerteam/chucker/internal/ui/transaction/TransactionViewModel.kt:53 | `switchUrlEncoding` negates the flag. |
| `TransactionViewModels.TransactionViewModel.GetMock` | library/src/main/kotlin/com/chuckerteam/chucker/internal/ui/transaction/TransactionViewModel.kt:82-86 | A record without a URL has no mock and causes no lookup. Otherwise the first row stored for its URL is returned, or null when there is none. |
| `TransactionViewModels.TransactionViewModel.WriteMock` | library/src/main/kotlin/com/chuckerteam/chucker/internal/ui/transaction/TransactionViewModel.kt:62-75 | With no mock for the URL, the record takes the body and flag and is inserted. Otherwise only the first mock's body and flag are overwritten, with no insert. The lookup then yields the written body and flag. Lookups of every other URL are unchanged. |
| `TransactionViewModels.TransactionViewModelFactory.constructor` | library/src/main/kotlin/com/chuckerteam/chucker/internal/ui/transaction/TransactionViewModel.kt:89-91 | The factory's id defaults to 0. |
| `TransactionViewModels.TransactionViewModelFactory.WithTransactionId` | library/src/main/kotlin/com/chuckerteam/chucker/internal/ui/transaction/TransactionViewModel.kt:89-91 | The factory keeps the given id. |
| `TransactionViewModels.TransactionViewModelFactory.Create` | library/src/main/kotlin/com/chuckerteam/chucker/internal/ui/transaction/TransactionViewModel.kt:92-96 | Only the TransactionViewModel class is built, fresh, with the factory's id and encoding off. Any other class is refused with "Cannot create " and its name. |
| `PayloadAdapter.ViewType` | library/src/main/kotlin/com/chuckerteam/chucker/internal/ui/transaction/TransactionPayloadAdapter.kt:83-89 | Header, body line, image and mock body map to 1, 2, 3 and 5, each iff that kind. 4 is never returned. |
| `PayloadAdapter.ForegroundSpans` | library/src/main/kotlin/com/chuckerteam/chucker/internal/ui/transaction/TransactionPayloadAdapter.kt:135-144 | The kept spans are foreground spans from the line and no more than it had. |
| `PayloadAdapter.ForegroundSpansKeepExactlyForeground` | library/src/main/kotlin/com/chuckerteam/chucker/internal/ui/transaction/TransactionPayloadAdapter.kt:135-144 | Every foreground span is kept as often as it occurs; every other span is removed. |
| `PayloadAdapter.NothingRemovedIffAllForeground` | library/src/main/kotlin/com/chuckerteam/chucker/internal/ui/transaction/TransactionPayloadAdapter.kt:135-144 | Nothing is removed exactly when every span is a foreground span. |
| `PayloadAdapter.ClearHighlightSpans` | library/src/main/kotlin/com/chuckerteam/chucker/internal/ui/transaction/TransactionPayloadAdapter.kt:135-144 | `clearHighlightSpans` leaves exactly the foreground spans and returns the number of spans removed. |
| `PayloadAdapter.LineReportedIff` | library/src/main/kotlin/com/chuckerteam/chucker/internal/ui/transaction/TransactionPayloadAdapter.kt:96-119 | A line is reported exactly when it contains the query (highlight only) or had a non-foreground span. A non-matching line keeps its text and exactly its foreground spans. |
| `PayloadAdapter.UpdatedItems` | library/src/main/kotlin/com/chuckerteam/chucker/internal/ui/transaction/TransactionPayloadAdapter.kt:92-121 | Highlight and reset change only body-line items; every other item is kept as it was. |
| `PayloadAdapter.BodyLines` | library/src/main/kotlin/com/chuckerteam/chucker/internal/ui/transaction/TransactionPayloadAdapter.kt:93 | The filtered body lines are no more than the items. |
| `PayloadAdapter.AnnouncedPositions` | library/src/main/kotlin/com/chuckerteam/chucker/internal/ui/transaction/TransactionPayloadAdapter.kt:94-118 | Position p is announced exactly when body line p-1 (counted from 0) is reported. Only item changes are announced. |
| `PayloadAdapter.AnnouncementsIncrease` | library/src/main/kotlin/com/chuckerteam/chucker/internal/ui/transaction/TransactionPayloadAdapter.kt:94-118 | Announcements come in strictly increasing position order, so each row is announced at most once. |
| `PayloadAdapter.PositionsMatchAdapterLayout` | library/src/main/kotlin/com/chuckerteam/chucker/internal/ui/transaction/TransactionPayloadAdapter.kt:101 | With one leading non-body item followed by body lines, the k-th body line sits at adapter position k+1, the announced position. |
| `PayloadAdapter.AnnouncementPastLastRow` | library/src/main/kotlin/com/chuckerteam/chucker/internal/ui/transaction/TransactionPayloadAdapter.kt:94-101 | With a single body line and no leading item, a matching highlight announces position 1, one past the last of the adapter's positions. |
| `PayloadAdapter.UpdatedBodyLines` | library/src/main/kotlin/com/chuckerteam/chucker/internal/ui/transaction/TransactionPayloadAdapter.kt:93-120 | The walk over the body lines produces exactly the updated items and the announcements the specification functions give. |
| `PayloadAdapter.UpdateOneItem` | library/src/main/kotlin/com/chuckerteam/chucker/internal/ui/transaction/TransactionPayloadAdapter.kt:95-108 | One step of the walk updates a body line and announces it when reported; other items are untouched. |
| `PayloadAdapter.UpdateOneLine` | library/src/main/kotlin/com/chuckerteam/chucker/internal/ui/transaction/TransactionPayloadAdapter.kt:96-108 | A matching line is cleared then highlighted and reported. Any other line is cleared and reported only if a span was removed. |
| `PayloadAdapter.TransactionBodyAdapter.constructor` | library/src/main/kotlin/com/chuckerteam/chucker/internal/ui/transaction/TransactionPayloadAdapter.kt:35 | The adapter starts empty. |
| `PayloadAdapter.TransactionBodyAdapter.GetItemCount` | library/src/main/kotlin/com/chuckerteam/chucker/internal/ui/transaction/TransactionPayloadAdapter.kt:81 | The item count is the number of items shown. |
| `PayloadAdapter.TransactionBodyAdapter.GetItemViewType` | library/src/main/kotlin/com/chuckerteam/chucker/internal/ui/transaction/TransactionPayloadAdapter.kt:83-89 | Each of the four view types is reported exactly for its own kind of item, so the four are told apart. |
| `PayloadAdapter.TransactionBodyAdapter.SetItems` | library/src/main/kotlin/com/chuckerteam/chucker/internal/ui/transaction/TransactionPayloadAdapter.kt:37-43 | The list becomes the given items and the count their number. It announces removal of the old count, then insertion of the new count, both from 0. |
| `PayloadAdapter.TransactionBodyAdapter.HighlightQueryWithColors` | library/src/main/kotlin/com/chuckerteam/chucker/internal/ui/transaction/TransactionPayloadAdapter.kt:92-110 | Items and announcements are those of the highlight specification. |
| `PayloadAdapter.TransactionBodyAdapter.ResetHighlight` | library/src/main/kotlin/com/chuckerteam/chucker/internal/ui/transaction/TransactionPayloadAdapter.kt:112-121 | Items and announcements are those of the reset specification. |
| `PayloadAdapter.TransactionBodyAdapter.UpdateBodyLines` | library/src/main/kotlin/com/chuckerteam/chucker/internal/ui/transaction/TransactionPayloadAdapter.kt:93-120 | The shared walk of highlight and reset sets the items and appends the announcements the specification gives. |

## Left out

- `HttpTransaction` is a value, not a shared object. `intercept`, `insertTransaction` and `writeMock` return the updated record (`wasResponseMocked`, `error`, `id`, body and flag) instead of mutating the caller's object. Aliasing between the caller's record and what the processors or the database hold is not modelled.
- `RequestProcessor`, `ResponseProcessor.process`, `ChuckerCollector`, `PlainTextDecoder`, `Protocol.get`, `getFormattedPath`, `hasTheSameContent` and `highlightWithDefinedColors` are not part of this model. Each is an abstract function parameter. The effect of `requestProcessor.process` on the record is therefore not captured; it appears only as a recorded call.
- `HttpTransactionDao` and its SQL are not part of this model. The DAO is a stand-in with these assumptions:
  - rows are kept in insertion order;
  - insert hands out a fresh key from a counter and ignores the record's own id;
  - the time-range query keeps rows with `requestDate >= bound`, and rows without a date are never kept;
  - `getTransactionByUrl` matches the URL exactly.
- `MockRepository.HttpTransactionDao.Insert` always stores in the stand-in. Its contract also allows a refused insert (null key) because the DAO returns `Long?`, so the repository's `?: 0` branch is covered.
- `getSortedTransactionTuples`, `getAllTransactions` and `deleteOldTransactions` are left out. They pass straight through to DAO queries whose SQL is not part of this model. `getTransaction` is modelled only through its change comparator (`IsSameTransaction`).
- `getFilteredTransactionTuples` is modelled by the patterns it builds (`MockRepository.FilteredTransactionQuery`) and their LIKE meaning. The DAO query that applies them is not modelled. The LIKE meaning is proved only for filter text without `%` or `_`. The typed text is not escaped, so `%` and `_` in it act as wildcards (`MockRepository.UnderscoreInCodeIsWildcard`).
- Case-insensitive matching folds ASCII letters only. That matches SQLite's LIKE, but Kotlin's `contains(ignoreCase = true)` also folds other scripts.
- LiveData, `combineLatest`, `map`, `distinctUntilChanged`, coroutines and threading are not modelled. The derived values are plain functions of the current record and the encode flag. `writeMock` is one sequential operation. The try/catch of `IllegalStateException` around `launch` in `writeMock` is not modelled. `RepositoryProvider` is replaced by passing the repository.
- `TransactionViewModelFactory.Create` names the refused class by a string standing for the class's `toString()`.
- `System.currentTimeMillis` (the sent and received times of the mock response) is not modelled. The `Context`, `Chucker.createShortcut`, and the `HttpUrl` parsing and building (`toHttpUrl`, the `skipPaths` encoding) are not modelled either. The `skipPaths` encoding is an abstract function, and the mock response's request URL is the stored URL string.
- `Interception.MockRequestRun` and `Interception.MockResponse`: a stored mock without a URL gives a response whose request URL is absent. In the source, `HttpUrl.Builder().build()` throws `IllegalStateException` for that case, because no scheme is set. `intercept` never meets such a mock, since the lookup is by the request's URL.
- `Interception.Builder.RedactHeaders` models both `redactHeaders` overloads, which behave the same, as one member over a sequence of names.
- The interceptor's redaction set is shared with both processors in the source. Here it is a field of the interceptor only.
- `maxContentLength`, `alwaysReadResponseBody`, the collector and the cache directory are carried as configuration only. What the processors do with them is not modelled.
- The view holders, the view inflation in `onCreateViewHolder`, `onBindViewHolder` and the luminance threshold of the image background are UI code and are not modelled. Nor is the `updateMock` callback of `TransactionBodyAdapter`, whose only use is in a view holder. `TransactionPagerAdapter` and `ChuckerMockDatabase` hold no logic beyond wiring.
- Image luminance is carried as an optional real and never inspected.
- `PayloadAdapter.TransactionBodyAdapter.HighlightQueryWithColors`, `PayloadAdapter.TransactionBodyAdapter.ResetHighlight` and `PayloadAdapter.TransactionBodyAdapter.SetItems` treat payload items and spannable lines as values. In the source, `BodyLineItem` holds a mutable `SpannableStringBuilder` whose spans `removeSpan` clears in place, and `setItems` keeps the caller's item objects. Here each walk rebuilds the lines from the items as they were, so aliasing is not modelled. That covers one item listed twice: the source clears it on the first visit and does not report it again on the second. It also covers items shared with the caller's list, which the source's edits change as well.
