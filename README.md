# geohashdroid: stock fetching, provider liveness and GPS preference

This project models three pieces of the Geohash Droid Android application in Dafny and proves properties of them.

- **HashBuilder.StockRunner** fetches the day's DJIA value for a date and a graticule. Under the 30W rule it uses the previous calendar day. It asks the stock cache first; the cache is stubbed and always misses. It then issues an HTTP GET to `http://irc.peeron.com/xkcd/map/data/<year>/<MM>/<DD>`. Once the null dereference at line 176 is corrected (see "## Findings"), a failure or an abort ends in `ERROR_NOT_POSTED`, `ERROR_SERVER` or `ABORTED` and is reported by one message to an Android `Handler`; as written, only a transport error is reported (`ERROR_SERVER`), and every response leaves the runner `BUSY` and silent. A fetched stock leaves the runner `BUSY` and unreported. `IDLE` is only the status of a new runner, and `ALL_OKAY` comes only from a cache hit, which the stub never gives.
- **GeohashService** keeps a map from provider name to enabled flag, the last fix and a tracking flag. When the last live provider goes down, the last fix is dropped.
- **DetailedInfoScreen** keeps the flag `mIsGPSActive`:
  - a GPS fix is always displayed;
  - a network fix is displayed only while GPS is not active.
  On creation it shows a recent last-known fix. It writes latitude and longitude with N/S and E/W suffixes.

Files, one module each:
- `optional.dfy`: `Option`.
- `geo.dfy`: fixes, the Info bundle and the platform constants.
- `calendar.dfy`: Gregorian dates and their successor and predecessor.
- `decimal.dfy`: integer text as Java writes it, and parsers for reading it back.
- `hash_builder.dfy`: the stock runner.
- `location_service.dfy`: the service.
- `detail_screen.dfy`: the screen.

Where the source updates fields in place, the model is a class with those fields:
- `StockRunner`: the status, the request, the Handler, and an outbox of sent messages.
- `GeohashService`: the provider map, the last location and the tracking flag.
- `DetailedInfoScreen`: the GPS flag and the list of fixes handed to `updateInfo`.

Each method's postcondition gives the new state as a function of the old one. Date arithmetic, the URL, response classification and the screen's callback machine are pure functions, proved with lemmas.

Platform calls are replaced by parameters:
- `HttpClient.execute` becomes an `HttpOutcome`: it either throws, or returns a status code and a stream of chunks.
- An `abort()` from another thread during the blocking call becomes the flag `abortInFlight`. `Run` then calls `Abort` at that point.
- `new Float(String)` becomes the function parameter `parsesAsFloat`.
- `LocationManager.isProviderEnabled` and `getLastKnownLocation` are parameters.
- `System.currentTimeMillis()` is two parameters, one for each time the screen reads the clock.
- `Location.distanceTo` is a parameter.
- A `Handler` is known only by its identity. A `Message` is a record of target, `what` and payload.

Where the code and the intended design differ, the model follows the code, with one exception:
- `fetchStock` sets the request to null at line 176 and dereferences it at line 180 (see "## Findings"). `FetchAsWritten` and `RunStatusAsWritten` model these lines as written. `StockRunner.FetchStock`, and through it `Run` and `RunWithLookup`, model the corrected fetch: line 176 dropped, and the abort flag read right after `execute`.
- The success path of `run` neither sets `ALL_OKAY` nor sends a message. The runner stays `BUSY`.
- `storeInfo` is given the runner's unshifted date, not the effective date.
- The cache stubs never hit, so every run goes to the network.
- `onStatusChanged` in the service disables the provider whatever the status.
- `onStart` of the service, given an intent without an Info but with providers, builds the provider map and then throws in `updateNotification`, before tracking is switched on. `OnStart` reports this as `crashed`.

## Model

| member | source | states |
|---|---|---|
| Calendar.DaysInMonth | src/net/exclaimindustries/geohashdroid/HashBuilder.java:153 | month lengths are 28..31, and 29 exactly for February of a Gregorian leap year |
| Calendar.Successor | src/net/exclaimindustries/geohashdroid/HashBuilder.java:153 | the next day is a valid date strictly later than the given one (reference for the day shift) |
| Calendar.Predecessor | src/net/exclaimindustries/geohashdroid/HashBuilder.java:153 | the previous day is a valid date, strictly earlier, whose successor is the given date (month, year and leap-day rollover) |
| Calendar.PredecessorOfSuccessor | src/net/exclaimindustries/geohashdroid/HashBuilder.java:153 | stepping forward one day and back returns the same date |
| Calendar.PredecessorIsAdjacent | src/net/exclaimindustries/geohashdroid/HashBuilder.java:153 | no valid date lies strictly between a date and its predecessor |
| Calendar.PredecessorUnique | src/net/exclaimindustries/geohashdroid/HashBuilder.java:153 | the predecessor is the only valid date whose successor is the given date |
| HashBuilder.EffectiveDate | src/net/exclaimindustries/geohashdroid/HashBuilder.java:151-153 | under the 30W rule the effective date is one calendar day before the adventure date, otherwise it is that date |
| Decimal.IntToString | src/net/exclaimindustries/geohashdroid/HashBuilder.java:170-171 | an int concatenated into a string is a minus sign exactly for a negative int, followed by a non-empty run of digits without a leading zero |
| Decimal.ParseIntToString | src/net/exclaimindustries/geohashdroid/HashBuilder.java:170-171 | the year written into the URL reads back as the same integer |
| Decimal.Pad | src/net/exclaimindustries/geohashdroid/HashBuilder.java:159-167 | a month or day in 0..99 is written as exactly two digits, starting with "0" exactly when it is below 10; values of 10 and more get no leading zero |
| Decimal.PadRoundTrip | src/net/exclaimindustries/geohashdroid/HashBuilder.java:159-167 | a padded month or day reads back as the same number |
| HashBuilder.StockUrl | src/net/exclaimindustries/geohashdroid/HashBuilder.java:170-171 | the URL starts with the stock base; for a valid date the month and day take exactly two characters each, after a "/" |
| HashBuilder.StockUrlRoundTrip | src/net/exclaimindustries/geohashdroid/HashBuilder.java:170-171 | splitting the URL's path after the base on "/" and parsing year, month and day gives the fetched date back |
| HashBuilder.StockUrlInjective | src/net/exclaimindustries/geohashdroid/HashBuilder.java:170-171 | different dates are fetched from different URLs |
| HashBuilder.ThirtyWestExample | src/net/exclaimindustries/geohashdroid/HashBuilder.java:151-171 | 1 December 2009 under the 30W rule is fetched from .../2009/11/30 |
| HashBuilder.Code | src/net/exclaimindustries/geohashdroid/HashBuilder.java:57-80 | status codes are BUSY=0 ... ABORTED=5 |
| HashBuilder.CodeInjective | src/net/exclaimindustries/geohashdroid/HashBuilder.java:57-80 | distinct statuses carry distinct message codes |
| HashBuilder.HttpGet.constructor | src/net/exclaimindustries/geohashdroid/HashBuilder.java:174 | a new request asks for the given URI and is not aborted |
| HashBuilder.HttpGet.Abort | src/net/exclaimindustries/geohashdroid/HashBuilder.java:245 | an aborted request reports itself aborted |
| HashBuilder.GetStringFromStream | src/net/exclaimindustries/geohashdroid/HashBuilder.java:217-230 | the result is the concatenation, in order, of every chunk read before -1; a read error propagates |
| HashBuilder.FetchSpec | src/net/exclaimindustries/geohashdroid/HashBuilder.java:174-204 | corrected fetch: a transport error is an IOException; a response to an aborted request gives "" without reading the body; NotFound iff a non-aborted 404; a non-aborted stock is exactly the whole readable body of a 200 that parses as a float |
| HashBuilder.StatusAfterFetch | src/net/exclaimindustries/geohashdroid/HashBuilder.java:113-132 | ERROR_NOT_POSTED exactly for a FileNotFoundException, ERROR_SERVER exactly for an IOException, ABORTED exactly for a fetched result on an aborted request, BUSY exactly for a fetched result on a live one |
| HashBuilder.RunStatus | src/net/exclaimindustries/geohashdroid/HashBuilder.java:107-132 | a network fetch never leaves the runner IDLE or ALL_OKAY; the full classification is RunStatusClassification |
| HashBuilder.RunStatusClassification | src/net/exclaimindustries/geohashdroid/HashBuilder.java:113-201 | ERROR_NOT_POSTED iff a non-aborted 404; ABORTED iff a response came back on an aborted request; BUSY iff a non-aborted 200 whose body reads and parses as a float; ERROR_SERVER in every other case, including a transport error and an unparseable 200 body |
| HashBuilder.Report | src/net/exclaimindustries/geohashdroid/HashBuilder.java:113-141 | at most one message, and none exactly when the runner stays BUSY; its content is stated by ReportOnePerTerminal |
| HashBuilder.ReportOnePerTerminal | src/net/exclaimindustries/geohashdroid/HashBuilder.java:115-146 | each failure or abort sends exactly one message to the current Handler, with what = status and a null payload |
| HashBuilder.ReportSilentOnSuccess | src/net/exclaimindustries/geohashdroid/HashBuilder.java:134-141 | a fetched stock sends no message |
| HashBuilder.HasStockStored | src/net/exclaimindustries/geohashdroid/HashBuilder.java:299-302 | the stub never reports a stored stock |
| HashBuilder.StoreInfo | src/net/exclaimindustries/geohashdroid/HashBuilder.java:327-329 | the stub has no effect; its calls are recorded by RunWithLookup |
| HashBuilder.GetStoredInfo | src/net/exclaimindustries/geohashdroid/HashBuilder.java:315-318 | the stub never returns an Info |
| HashBuilder.CacheQueriesAgree | src/net/exclaimindustries/geohashdroid/HashBuilder.java:299-318 | "stored" holds exactly when an Info can be retrieved |
| HashBuilder.StockRunner.constructor | src/net/exclaimindustries/geohashdroid/HashBuilder.java:88-93 | a new runner is IDLE with no request, having sent and stored nothing |
| HashBuilder.RequestStockRunner | src/net/exclaimindustries/geohashdroid/HashBuilder.java:281-285 | returns a fresh IDLE runner for the date, graticule and Handler given |
| HashBuilder.StockRunner.SendMessage | src/net/exclaimindustries/geohashdroid/HashBuilder.java:143-146 | appends one message to the current Handler whose what is the current status |
| HashBuilder.StockRunner.ChangeHandler | src/net/exclaimindustries/geohashdroid/HashBuilder.java:237-239 | later messages go to the new Handler; nothing else changes |
| HashBuilder.StockRunner.GetStatus | src/net/exclaimindustries/geohashdroid/HashBuilder.java:256-258 | returns the code of the current status |
| HashBuilder.StockRunner.Abort | src/net/exclaimindustries/geohashdroid/HashBuilder.java:244-246 | aborts the current request if there is one; never changes the status or the request field |
| HashBuilder.StockRunner.FetchStock | src/net/exclaimindustries/geohashdroid/HashBuilder.java:148-205 | corrected: line 176 dropped. Issues a fresh request for the URL of the effective date and returns the classification of its response, checking abort before the body is read |
| HashBuilder.StockRunner.RunWithLookup | src/net/exclaimindustries/geohashdroid/HashBuilder.java:100-141 | corrected: line 176 dropped. A cache hit gives ALL_OKAY and one message carrying the Info, with no request; otherwise the status is the classification, the messages are those of ReportOnePerTerminal, and storeInfo is called once with the unshifted date exactly when the runner stays BUSY |
| HashBuilder.StockRunner.Run | src/net/exclaimindustries/geohashdroid/HashBuilder.java:96-141 | corrected: line 176 dropped. With the stub cache every run goes to the network, with the effects of RunWithLookup's miss case |
| HashBuilder.FetchAsWritten | src/net/exclaimindustries/geohashdroid/HashBuilder.java:174-181 | as written: every response ends in a NullPointerException; only a failing execute gets through, as an IOException |
| HashBuilder.RunStatusAsWritten | src/net/exclaimindustries/geohashdroid/HashBuilder.java:113-128 | as written: the runner ends ERROR_SERVER exactly on a transport error and stays BUSY on every response |
| HashBuilder.AsWrittenLoses404 | src/net/exclaimindustries/geohashdroid/HashBuilder.java:174-181 | as written, a 404 ends in a null dereference, leaving the runner BUSY and silent; the corrected fetch reports ERROR_NOT_POSTED with one message |
| HashBuilder.AsWrittenNeverClassifiesResponses | src/net/exclaimindustries/geohashdroid/HashBuilder.java:176-180 | as written, every response leaves the runner BUSY |
| HashBuilder.AsWrittenAgreesOnTransportError | src/net/exclaimindustries/geohashdroid/HashBuilder.java:114-125 | when execute itself throws, the as-written and corrected fetches agree (IOException) |
| LocationService.LastProviderGoesDown | src/net/exclaimindustries/geohashdroid/GeohashService.java:189-200 | a disable takes the map from some alive to none alive iff that provider was alive and was the only live one |
| LocationService.EnabledProviderIsAlive | src/net/exclaimindustries/geohashdroid/GeohashService.java:205-214 | after an enable some provider is alive |
| LocationService.GeohashService.constructor | src/net/exclaimindustries/geohashdroid/GeohashService.java:41-55 | no location, no Info, no provider map, not tracking; tracking implies an Info holds |
| LocationService.GeohashService.OnStart | src/net/exclaimindustries/geohashdroid/GeohashService.java:84-120 | stores the intent's Info. With no providers: not tracking, map untouched. Otherwise the map's keys are exactly the providers, each mapped to its enabled state; then, without an Info, updateNotification throws before tracking changes, and with one tracking is on. Unless it throws, tracking implies an Info |
| LocationService.GeohashService.AreAnyProvidersStillAlive | src/net/exclaimindustries/geohashdroid/GeohashService.java:165-177 | true iff some entry of the map is true (false for an empty map) |
| LocationService.GeohashService.OnLocationChanged | src/net/exclaimindustries/geohashdroid/GeohashService.java:180-186 | the fix becomes the last location |
| LocationService.GeohashService.OnProviderDisabled | src/net/exclaimindustries/geohashdroid/GeohashService.java:189-202 | that provider's entry becomes false, the others are unchanged; the last location becomes null exactly when this took the map from some alive to none alive |
| LocationService.GeohashService.OnProviderEnabled | src/net/exclaimindustries/geohashdroid/GeohashService.java:205-214 | that provider's entry becomes true; the last location is untouched |
| LocationService.GeohashService.OnStatusChanged | src/net/exclaimindustries/geohashdroid/GeohashService.java:217-226 | has exactly the effect of OnProviderDisabled whatever the status |
| LocationService.GeohashService.HasLocation | src/net/exclaimindustries/geohashdroid/GeohashService.java:154-157 | true iff there is a last location |
| LocationService.GeohashService.IsTracking | src/net/exclaimindustries/geohashdroid/GeohashService.java:160-162 | returns the tracking flag |
| LocationService.GeohashService.GetLastLocation | src/net/exclaimindustries/geohashdroid/GeohashService.java:149-151 | returns the last location |
| LocationService.GeohashService.GetLastAccuracyInMeters | src/net/exclaimindustries/geohashdroid/GeohashService.java:133-138 | the fix's accuracy when tracking with a fix, Float.MAX_VALUE otherwise |
| LocationService.GeohashService.GetLastDistanceInMeters | src/net/exclaimindustries/geohashdroid/GeohashService.java:141-146 | in any state where tracking implies an Info: the distance to the final destination when tracking with a fix, Float.MAX_VALUE otherwise |
| DetailScreen.ChooseLastKnown | src/net/exclaimindustries/geohashdroid/DetailedInfoScreen.java:105-114 | a fresh last-known GPS fix is chosen; only when it is absent or stale is the network fix used, and only if fresh; otherwise none |
| DetailScreen.IsFresh | src/net/exclaimindustries/geohashdroid/DetailedInfoScreen.java:107-111 | a last-known fix is used only when strictly less than 120000 ms old |
| DetailScreen.FreshnessIsStrict | src/net/exclaimindustries/geohashdroid/DetailedInfoScreen.java:107 | a fix exactly 120000 ms old is stale, one ms younger is fresh |
| DetailScreen.LatitudeSuffix | src/net/exclaimindustries/geohashdroid/DetailedInfoScreen.java:235 | the suffix is "N" exactly when the latitude is above 0, and "S" otherwise, the equator included |
| DetailScreen.LongitudeSuffix | src/net/exclaimindustries/geohashdroid/DetailedInfoScreen.java:240 | the suffix is "E" exactly when the longitude is above 0, and "W" otherwise, the prime meridian included |
| DetailScreen.LatitudeRoundTrip | src/net/exclaimindustries/geohashdroid/DetailedInfoScreen.java:235 | a reader that accepts only "N" and "S" gets the latitude back from the magnitude and the suffix, the equator included; a longitude reader rejects the suffix |
| DetailScreen.LongitudeRoundTrip | src/net/exclaimindustries/geohashdroid/DetailedInfoScreen.java:240 | a reader that accepts only "E" and "W" gets the longitude back, the prime meridian included; a latitude reader rejects the suffix |
| DetailScreen.SuffixesAreOpposite | src/net/exclaimindustries/geohashdroid/DetailedInfoScreen.java:235-240 | opposite non-zero coordinates get opposite suffixes |
| DetailScreen.MakeLatitude | src/net/exclaimindustries/geohashdroid/DetailedInfoScreen.java:232-236 | the text is the formatted absolute value of the latitude, a degree sign and the letter "N" if the latitude is above 0, "S" otherwise; magnitude and letter give the latitude back |
| DetailScreen.MakeLongitude | src/net/exclaimindustries/geohashdroid/DetailedInfoScreen.java:238-241 | the text is the formatted absolute value of the longitude, a degree sign and the letter "E" if the longitude is above 0, "W" otherwise; magnitude and letter give the longitude back |
| DetailScreen.Step | src/net/exclaimindustries/geohashdroid/DetailedInfoScreen.java:171-203 | one callback displays at most its own fix, and only a GPS fix can raise the GPS flag |
| DetailScreen.GpsFixAlwaysShown | src/net/exclaimindustries/geohashdroid/DetailedInfoScreen.java:173-176 | a GPS fix sets the GPS flag and is displayed |
| DetailScreen.OtherFixShownIffGpsInactive | src/net/exclaimindustries/geohashdroid/DetailedInfoScreen.java:177-181 | a non-GPS fix (a null provider included) never changes the flag and is displayed iff GPS is inactive |
| DetailScreen.ProviderCallbacksOnlyClearGps | src/net/exclaimindustries/geohashdroid/DetailedInfoScreen.java:186-203 | provider callbacks display nothing; the flag is cleared only by GPS disabled or a GPS status other than AVAILABLE, and is otherwise kept |
| DetailScreen.GpsHoldsTheScreen | src/net/exclaimindustries/geohashdroid/DetailedInfoScreen.java:171-203 | once GPS is active, no callback sequence that avoids clearing GPS can unset the flag or display a non-GPS fix |
| DetailScreen.DetailedInfoScreen.constructor | src/net/exclaimindustries/geohashdroid/DetailedInfoScreen.java:42 | the GPS flag starts false and nothing is displayed |
| DetailScreen.DetailedInfoScreen.UpdateInfo | src/net/exclaimindustries/geohashdroid/DetailedInfoScreen.java:205-230 | the fix becomes the displayed one |
| DetailScreen.DetailedInfoScreen.OnCreate | src/net/exclaimindustries/geohashdroid/DetailedInfoScreen.java:105-114 | displays ChooseLastKnown's fix, if any, without touching the GPS flag |
| DetailScreen.DetailedInfoScreen.OnLocationChanged | src/net/exclaimindustries/geohashdroid/DetailedInfoScreen.java:172-183 | the new state is one Step on a LocationChanged event |
| DetailScreen.DetailedInfoScreen.OnProviderDisabled | src/net/exclaimindustries/geohashdroid/DetailedInfoScreen.java:186-190 | the new state is one Step on a ProviderDisabled event |
| DetailScreen.DetailedInfoScreen.OnProviderEnabled | src/net/exclaimindustries/geohashdroid/DetailedInfoScreen.java:193-196 | nothing changes |
| DetailScreen.DetailedInfoScreen.OnStatusChanged | src/net/exclaimindustries/geohashdroid/DetailedInfoScreen.java:199-203 | the new state is one Step on a StatusChanged event |

## Findings

| source | as written | input that shows it | evidently intended | confidence | as-written member | corrected member |
|---|---|---|---|---|---|---|
| src/net/exclaimindustries/geohashdroid/HashBuilder.java:176-180 | `mRequest` is set to null right after `execute` returns, then `mRequest.isAborted()` is called on it (and again at line 127). The NullPointerException is not caught by `run`, so the thread dies with the status still `BUSY` and no message sent. | Any HTTP response, for instance a 404: `ERROR_NOT_POSTED` is never reported | Check the request's abort flag right after `execute` and before the body is read, and keep the request referenced for the check in `run` | not executed; follows from the order of lines 174-180 | HashBuilder.FetchAsWritten, HashBuilder.AsWrittenLoses404 | HashBuilder.StockRunner.FetchStock |

## Left out

- Threads and `synchronized(locker)`: `run` is one atomic step. An abort that races with the network call is the `abortInFlight` parameter; an abort at any other moment is a call of `Abort` between runs.
- The HTTP client and the reader's internals are replaced by an abstract outcome and a chunk stream. Chunk sizes (at most 1024 characters per read) are not modelled.
- GetStringFromStream: the stream is a finite sequence of chunks, so the endless read that `getStringFromStream` performs on a stream that never ends cannot be expressed; every modelled read terminates.
- Float parsing is the parameter `parsesAsFloat`. The model does not say which strings Java's `Float` accepts.
- Floating point: coordinates, accuracies and distances are reals. NaN and the rounding of `float`/`double` are not modelled. `DecimalFormat` is the formatter parameter `fmt` of `MakeLatitude`/`MakeLongitude`, applied to the coordinate's absolute value, and `distanceTo` is a parameter.
- Calendar.Predecessor: uses the proleptic Gregorian calendar with astronomical year numbers. It does not model GregorianCalendar's switch to the Julian calendar before 15 October 1582, or its era field for years before 1 AD.
- DetailScreen.IsFresh: the millisecond clock is an unbounded integer; 64-bit wrap-around of `now - time` is not modelled.
- The stock cache is modelled as the stubs it is. The intended store (one record per effective date, never overwritten) does not exist in the source.
- The Info bundle is only built from a real stored value; Info.java is not part of this model. Once a stock is fetched, nothing is assembled from it.
- Android plumbing is left out: `Handler`/`Message` delivery (modelled as an outbox), listener registration and removal, notifications and `updateNotification`, `PendingIntent`, views and `TextView` text, wake locks, resources, and `Bundle` save/restore.
- `UnitConverter` and `DistanceConverter` are foreign calls whose source is not shown; the strings they build are left out.
- GeohashService.OnProviderEnabled: the source's check of whether any provider was alive has an empty branch, so the model does not make it.
