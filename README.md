# Crypto price monitor: a verified model of its sequential core

This project models the sequential logic of a desktop crypto-currency price
monitor written in C#, and proves properties of that model. There are four
parts:

- **The observable price record** (`Models/CryptoCurrency.cs`, module
  `Models`). Seven fields, each behind a change-notifying setter.
  `SetProperty` does nothing when the value is equal; otherwise it assigns
  the field and raises exactly one `PropertyChanged`. The `Change24h` setter
  also always raises `IsPositiveChange` and `IsNegativeChange`. The record is
  a class; `PropertyChanged` is the log `changes` of property names.
- **The CoinGecko client** (`Services/CoinGeckoApiClient.cs`, module
  `CoinGecko`):
  - `StringExtensions.ToTitleCase`, as an array-rewriting method proved
    against a character-by-character reference definition;
  - the `GetCryptoName` table;
  - how one response becomes the list of records handed to the monitor: a
    transport error gives the fallback records, parsed data is read id by id,
    and any other error ends the loop.
- **The alert evaluator** (`Services/NotificationService.cs`, module
  `Notifications`). A threshold table keyed by the exact symbol string, and
  a pure function `Alerts` for the three independent checks that
  `CheckPriceAlerts` runs.
- **The monitoring engine** (`Services/CryptoPriceMonitorService.cs`, module
  `Monitor`). A class holding:
  - the registry of ten records built at construction;
  - the `_isMonitoring` flag;
  - the map of cancellation handles.

  `StartMonitoring`, `StopMonitoring` and `GetActiveConnections` act on that
  state. One pass of a coin's polling loop is `RunIteration`, built from the
  success step `ApplyPollResult` and the exception step `ApplyError`. Each is
  proved against specification functions on record values: `AfterPoll`,
  `PollLogs`, `PollEvents`, `PollAlerts`, `AfterError` and `ErrorLogs`.

Types:

- C# `decimal` is `real`, and `DateTime` is an `int` tick count, with
  `default(DateTime)` as 0.
- `ToUpper`, `ToLower` and `OrdinalIgnoreCase` act on ASCII letters only
  (module `Text`).
- `Option` (module `Wrappers`) stands for `FirstOrDefault` returning null.

Events:

- `PropertyChanged` is logged on each record.
- The `StatusChanged` and `PriceUpdated` events and the notifications
  `ShowNotification` displays are returned by the step that raises them.

What the code does, as the proofs show:

- A threshold is found only under the exact, upper-case symbol the monitor
  passes. A threshold set under a coin's lower-case id never fires
  (`Monitor.LowerCaseThresholdNeverFires`).
- A transport error in the client is not an error to the monitor. The
  fallback record of price 0 with status "連線錯誤" overwrites the coin's
  record, and from a positive price it shows a plunge alert
  (`Monitor.TransportErrorPoll`). The monitor's own error status "錯誤" is
  set only by an exception from outside the client.
- Polling loops never remove their handle. While monitoring,
  `GetActiveConnections` is therefore the number of records; otherwise it is
  0 (`Monitor.CryptoPriceMonitorService.ActiveConnectionsByFlag`). A loop
  that ends on its own keeps its uncancelled handle, so the count cannot
  reveal it.

## Model

| member | source | states |
|---|---|---|
| Models.SetProperty | Models/CryptoCurrency.cs:73-79 | an equal value leaves the field, raises nothing and returns false; otherwise the field takes the value, exactly one notification with the property's name is raised, and the result is true |
| Models.SetPropertyTwice | Models/CryptoCurrency.cs:73-79 | setting the same value twice in a row makes the second set a no-op that raises nothing |
| Models.ChangeFlags | Models/CryptoCurrency.cs:63-64 | `IsPositiveChange` and `IsNegativeChange` are never both true, are both false at a zero change, and one holds at any other change |
| Models.Change24hNotes | Models/CryptoCurrency.cs:34-43 | the `Change24h` setter always ends with the two flag notifications, preceded by `Change24h` exactly when the value differs |
| Models.CryptoCurrency.IsPositiveChange | Models/CryptoCurrency.cs:63 | holds iff the 24-hour change is above zero |
| Models.CryptoCurrency.IsNegativeChange | Models/CryptoCurrency.cs:64 | holds iff the 24-hour change is below zero |
| Models.CryptoCurrency.constructor | Models/CryptoCurrency.cs:8-14 | a new record has empty symbol and name, status "離線", zero numbers and time, and no notifications |
| Models.CryptoCurrency.SetSymbol | Models/CryptoCurrency.cs:16-20 | only the symbol changes; the log grows by what `SetProperty` raises |
| Models.CryptoCurrency.SetName | Models/CryptoCurrency.cs:22-26 | only the name changes; the log grows by what `SetProperty` raises |
| Models.CryptoCurrency.SetPrice | Models/CryptoCurrency.cs:28-32 | only the price changes; the log grows by what `SetProperty` raises |
| Models.CryptoCurrency.SetChange24h | Models/CryptoCurrency.cs:34-43 | only the 24-hour change changes; the log grows by `SetProperty`'s notification and then the two flag notifications |
| Models.CryptoCurrency.SetMarketCap | Models/CryptoCurrency.cs:45-49 | only the market cap changes; the log grows by what `SetProperty` raises |
| Models.CryptoCurrency.SetLastUpdate | Models/CryptoCurrency.cs:51-55 | only the update time changes; the log grows by what `SetProperty` raises |
| Models.CryptoCurrency.SetStatus | Models/CryptoCurrency.cs:57-61 | only the status changes; the log grows by what `SetProperty` raises |
| Text.LowerUpperRoundTrip | Services/CryptoPriceMonitorService.cs:62 | for an id without capitals, lower-casing the upper-cased symbol gives the id back, so the handle key equals the id |
| CoinGecko.JoinSplit | Services/CoinGeckoApiClient.cs:109-117 | joining the words of `Split(' ')` with spaces gives the input back |
| CoinGecko.TitleWordsCorrect | Services/CoinGeckoApiClient.cs:109-117 | rewriting each word and joining agrees with the character-by-character reference definition of title case |
| CoinGecko.ToTitleCase | Services/CoinGeckoApiClient.cs:104-118 | the result is the reference title case of the input; the empty input comes back unchanged |
| CoinGecko.TitleWordsInPlace | Services/CoinGeckoApiClient.cs:110-116 | the array afterwards holds each old word rewritten: first character upper-cased and the rest lower-cased, empty words untouched |
| CoinGecko.TitleCaseShape | Services/CoinGeckoApiClient.cs:106-117 | the length and every space are kept (so empty words stay empty), each word's first character is upper-cased and the rest lower-cased, and "" maps to "" |
| CoinGecko.TitleCaseIdempotent | Services/CoinGeckoApiClient.cs:109-117 | title-casing twice is the same as title-casing once |
| CoinGecko.GetCryptoNameKnown | Services/CoinGeckoApiClient.cs:80-91 | each of the ten known ids gets its fixed name |
| CoinGecko.GetCryptoNameFallback | Services/CoinGeckoApiClient.cs:92 | any other id keeps its length; a hyphen or space separates words; each word starts upper-case and continues lower-case |
| CoinGecko.GetCryptoNameExample | Services/CoinGeckoApiClient.cs:92 | "shiba-inu" is named "Shiba Inu" |
| CoinGecko.GetCryptoName | Services/CoinGeckoApiClient.cs:78-94 | the name is empty exactly when the id is empty: every known id has a non-empty fixed name, and the fallback keeps the id's length |
| CoinGecko.GetCryptoPrices | Services/CoinGeckoApiClient.cs:19-76 | the loop returns exactly the function `PricesFor` of the response; no exception escapes |
| CoinGecko.PricesFor | Services/CoinGeckoApiClient.cs:19-76 | never more records than requested ids; exactly one per id on a transport error; none on another failure or a null object |
| CoinGecko.Collect | Services/CoinGeckoApiClient.cs:33-54 | the id loop collects no more records than the ids it walks |
| CoinGecko.CollectIsPresentPrefix | Services/CoinGeckoApiClient.cs:33-73 | the id loop yields a prefix of the reference list (one record per readable id, in request order); it aborts exactly when some id's data throws, and then holds the records of the readable ids before the first id whose data throws; otherwise it is the whole list |
| CoinGecko.CollectStopsAtFirstThrow | Services/CoinGeckoApiClient.cs:33-73 | when the j-th id is the first whose data throws, the records returned are exactly the reference list of the ids before it |
| CoinGecko.PresentShape | Services/CoinGeckoApiClient.cs:33-54 | the reference list has no more records than there are requested ids, and each record is the online record built from the quote of some requested id that has a readable quote |
| CoinGecko.PresentElement | Services/CoinGeckoApiClient.cs:33-54 | every position of the reference list holds the online record of some requested id with a readable quote |
| CoinGecko.ParsedResultShape | Services/CoinGeckoApiClient.cs:31-55 | for parsed data, the result is a prefix of the reference list, no longer than the request, all online with a requested id's symbol; all of it when nothing throws, and the reference list of the ids before the first throwing id otherwise |
| CoinGecko.TransportErrorFallback | Services/CoinGeckoApiClient.cs:57-69 | on a transport error there is one record per requested id, in order, with its symbol and name, zero price, change and market cap, and status "連線錯誤" |
| CoinGecko.SingleIdResult | Services/CoinGeckoApiClient.cs:19-76 | polling one id yields nothing, or one record whose symbol is that id upper-cased |
| Notifications.InstantChangePercentScaled | Services/NotificationService.cs:59 | the instant change is 0 without a positive previous price; otherwise it times the previous price is a hundred times the move |
| Notifications.InstantChangePercent | Services/NotificationService.cs:59 | 0 without a positive previous price; otherwise positive exactly when the price rose and negative exactly when it fell |
| Notifications.Alerts | Services/NotificationService.cs:31-72 | one call shows at most three alerts |
| Notifications.AlertsFire | Services/NotificationService.cs:36-66 | a price alert iff a threshold under this exact symbol lies in (previous, current]; a 24-hour alert iff the change's magnitude exceeds 5; an instant alert iff the instant change's magnitude exceeds 2; never a system alert |
| Notifications.AlertsOrder | Services/NotificationService.cs:36-66 | the alerts come in the order price, 24-hour, instant; all carry the symbol; the 24-hour direction is "上漲" iff the change is positive, and the instant direction is "急漲" iff the price rose |
| Notifications.InstantChangeFires | Services/NotificationService.cs:59-60 | from a positive previous price, the instant alert fires iff the move exceeds a fiftieth of that price |
| Notifications.InstantChangeExamples | Services/NotificationService.cs:59-60 | 100 to 103 fires an instant alert; 100 to 101 does not |
| Notifications.SignificantChangeExamples | Services/NotificationService.cs:48 | a 24-hour change of 7 fires on every call whatever the prices; 5 and -5 do not |
| Notifications.NoThresholdNoPriceAlert | Services/NotificationService.cs:36 | without a threshold under this exact key there is no price alert |
| Notifications.OncePerCrossing | Services/NotificationService.cs:36-44 | along a price series, two price alerts are separated by a price below the threshold |
| Notifications.CrossingExample | Services/NotificationService.cs:39 | prices 9, 11, 12, 8, 11 against threshold 10 alert exactly on the steps 9 to 11 and 8 to 11 |
| Notifications.NotificationService.constructor | Services/NotificationService.cs:11-13 | the threshold table starts empty |
| Notifications.NotificationService.SetPriceAlert | Services/NotificationService.cs:26-29 | the table afterwards maps the key to the new threshold and is otherwise unchanged |
| Notifications.NotificationService.CheckPriceAlerts | Services/NotificationService.cs:31-72 | returns exactly the alerts of `Alerts` for its arguments; the table is not touched |
| Monitor.FindBySymbolFirst | Services/CryptoPriceMonitorService.cs:92-93 | the record found is the first whose symbol equals the given one ignoring case; none is found only when none matches |
| Monitor.FindBySymbol | Services/CryptoPriceMonitorService.cs:92-93 | a found index is in range and its record's symbol equals the given one ignoring case; the same search serves the error path at lines 141-142 |
| Monitor.CryptoIdsFacts | Services/CryptoPriceMonitorService.cs:32-36 | the ten ids are the client's known ids, lower-case, pairwise distinct and non-empty, and each has a non-empty name |
| Monitor.NewRegistry | Services/CryptoPriceMonitorService.cs:38-48 | one fresh, distinct record per id, in id order, with the id upper-cased as symbol, its name, status "準備中", and the notifications Symbol, Name, Status |
| Monitor.NewRecord | Services/CryptoPriceMonitorService.cs:40-45 | a fresh record with the id upper-cased as symbol, its name and status "準備中", having raised Symbol, Name and Status |
| Monitor.AfterPollShape | Services/CryptoPriceMonitorService.cs:89-104 | a poll result sets exactly price, change, market cap, update time and status of the first record matching its symbol ignoring case; symbols, names and all other records stay; an empty or unmatched result changes nothing |
| Monitor.PollUsesPreviousPrice | Services/CryptoPriceMonitorService.cs:97-120 | the alert check and the `PriceUpdated` event both take the record's price before the overwrite as previous and after it as current; nothing is raised when no record is updated |
| Monitor.AfterErrorShape | Services/CryptoPriceMonitorService.cs:141-146 | the error step sets only the first matching record's status to "錯誤"; without a match nothing changes |
| Monitor.SymbolsDistinct | Services/CryptoPriceMonitorService.cs:42 | distinct lower-case ids give symbols that differ even ignoring case |
| Monitor.RegistryPollTarget | Services/CryptoPriceMonitorService.cs:87-95 | whatever the client returns for the k-th id is written into the k-th record |
| Monitor.TransportErrorPoll | Services/CryptoPriceMonitorService.cs:87-111 | after a transport error the coin's record has price, change and market cap 0, time 0 and status "連線錯誤", the others are unchanged, and a positive previous price shows a plunge alert |
| Monitor.LowerCaseThresholdNeverFires | Services/CryptoPriceMonitorService.cs:107-111 | a threshold table whose every key holds a lower-case letter never gives a price alert, whatever the poll returns |
| Monitor.LowerCaseIdThresholdExample | Services/CryptoPriceMonitorService.cs:198-201 | a threshold set under "bitcoin" never fires for the registry |
| Monitor.AddHandles | Services/CryptoPriceMonitorService.cs:60-70 | each new key gets a fresh, uncancelled handle, existing entries stay, and the count of adds is the number of keys |
| Monitor.MarkAll | Services/CryptoPriceMonitorService.cs:167-170 | every record's status becomes the given one, with nothing else changed and one notification where it differed |
| Monitor.CancelAll | Services/CryptoPriceMonitorService.cs:160-163 | every handle in the map is cancelled |
| Monitor.CancellationTokenSource.Cancel | Services/CryptoPriceMonitorService.cs:162 | the token is cancelled afterwards |
| Monitor.SymbolKeys | Services/CryptoPriceMonitorService.cs:60-62 | one key per record, in registry order, each the record's symbol lower-cased |
| Monitor.OverwriteEntry | Services/CryptoPriceMonitorService.cs:100-104 | the record takes price, change, market cap, time and status from the update, keeps symbol and name, and logs exactly the notifications of the five setters in order |
| Monitor.SetMarket | Services/CryptoPriceMonitorService.cs:100-102 | the record takes price, change and market cap from the update and logs the notifications of those three setters in order |
| Monitor.CryptoPriceMonitorService.constructor | Services/CryptoPriceMonitorService.cs:19-49 | ten newly allocated records in id order with their symbols, names and status "準備中"; not monitoring; no handles; an empty threshold table |
| Monitor.CryptoPriceMonitorService.HandleKeys | Services/CryptoPriceMonitorService.cs:62 | each record's lower-cased symbol is its id |
| Monitor.CryptoPriceMonitorService.RegistrySymbols | Services/CryptoPriceMonitorService.cs:42 | the registry's symbols are its ids upper-cased, pairwise different ignoring case |
| Monitor.CryptoPriceMonitorService.ActiveConnectionsByFlag | Services/CryptoPriceMonitorService.cs:175-178 | the number of uncancelled handles is the number of records while monitoring and 0 otherwise |
| Monitor.CryptoPriceMonitorService.ActiveConnections | Services/CryptoPriceMonitorService.cs:175-178 | counts the handles whose token is not cancelled, never more than the handles in the map |
| Monitor.CryptoPriceMonitorService.StartMonitoring | Services/CryptoPriceMonitorService.cs:51-73 | while monitoring nothing changes; otherwise the flag is set, one fresh uncancelled handle is added per record under its id, both status messages are raised with the count of handles added, and the active count equals the registry size |
| Monitor.CryptoPriceMonitorService.StartAll | Services/CryptoPriceMonitorService.cs:55-70 | the flag is set and exactly one fresh uncancelled handle exists per id, as many as were added; the records are untouched |
| Monitor.CryptoPriceMonitorService.InstallHandles | Services/CryptoPriceMonitorService.cs:60-70 | starting from no handles, the map gets one fresh uncancelled handle per key; the records are untouched |
| Monitor.CryptoPriceMonitorService.StopMonitoring | Services/CryptoPriceMonitorService.cs:153-173 | when not monitoring nothing changes; otherwise the flag is cleared, every handle is cancelled, the map is emptied, every record's status becomes "已停止", and both status messages are raised; the active count is 0 |
| Monitor.CryptoPriceMonitorService.StopAll | Services/CryptoPriceMonitorService.cs:157-170 | the flag is cleared, every handle is cancelled, the map is emptied and every record's status becomes "已停止", with one notification where it differed |
| Monitor.CryptoPriceMonitorService.ReleaseHandles | Services/CryptoPriceMonitorService.cs:157-165 | the flag is cleared, every handle is cancelled and the map is emptied; the records are untouched |
| Monitor.CryptoPriceMonitorService.MarkStopped | Services/CryptoPriceMonitorService.cs:167-170 | only the records' statuses change, all to "已停止", and the registry keeps its labels |
| Monitor.CryptoPriceMonitorService.OverwriteAt | Services/CryptoPriceMonitorService.cs:100-104 | the five assignments change only record i, as `Overwrite` says, and log its notifications |
| Monitor.CryptoPriceMonitorService.SetStatusAt | Services/CryptoPriceMonitorService.cs:143-146 | only record i's status changes, with one notification where it differed; the other records are untouched |
| Monitor.CryptoPriceMonitorService.ApplyPollResult | Services/CryptoPriceMonitorService.cs:89-121 | the registry, the change logs, the `PriceUpdated` event and the alerts shown are those of `AfterPoll`, `PollLogs`, `PollEvents` and `PollAlerts` on the old registry |
| Monitor.CryptoPriceMonitorService.ApplyError | Services/CryptoPriceMonitorService.cs:137-146 | the registry and change logs are those of `AfterError` and `ErrorLogs` on the old registry |
| Monitor.CryptoPriceMonitorService.RunIteration | Services/CryptoPriceMonitorService.cs:77-151 | a cancelled token ends the loop with nothing changed; otherwise the client's result for this id is applied as a poll, or a caught exception is applied as an error, and the loop goes on |
| Monitor.CryptoPriceMonitorService.SetPriceAlert | Services/CryptoPriceMonitorService.cs:198-201 | the threshold is forwarded to the notification service's table under the same key |

## Left out

- Concurrency is not modelled. That covers the tasks and `Task.WhenAll`, the five-slot `SemaphoreSlim`, and the interleaving of the ten polling loops. One pass of a loop is a sequential step. The cap of five and the two sleeps of 10000 ms and 5000 ms appear only as named constants.
- Timing is not modelled: the `Task.Delay` sleeps, and cancellation that arrives during a semaphore wait or a sleep. The token is checked only at the head of an iteration.
- The HTTP request, URL building and Newtonsoft JSON parsing are not modelled. A response is abstract: a transport error, another failure before any data (a timeout or malformed JSON), or a parsed map from id to the three fields.
- A JSON `null` under an id is a non-null token whose indexing throws, so it is modelled as `NotAnObject`. The `NullToken` case models the source's `!= null` guard.
- Alert rendering is not modelled: sounds, `MessageBox`, console output and message formatting. The alerts a check would show are returned as a list.
- Error logging to the console is not modelled (Services/CoinGeckoApiClient.cs:59 and 72, Services/CryptoPriceMonitorService.cs:139). It has no effect on state.
- Event delegates are not invoked. `PropertyChanged` is a log on each record. `StatusChanged` and `PriceUpdated` are the outputs of the step that raises them.
- Exact C# `decimal` arithmetic is not modelled: 28-digit rounding of the division, and overflow, which `CheckPriceAlerts` would catch after showing the alerts so far. Numbers are `real`.
- `DateTime.Now` is a parameter. Case mapping is ASCII only instead of culture-sensitive.
- The monitor's `Dispose` (Services/CryptoPriceMonitorService.cs:203-214) calls `StopMonitoring`, which is modelled, and then only releases resources. Its loop over the handle map runs after the map was emptied, so it disposes nothing. The other `Dispose` methods only release resources.
- MainWindow.xaml.cs is not part of this model. It holds the UI, its timers and its dispatcher marshalling.
- The monitor's own copy of `GetCryptoName` (Services/CryptoPriceMonitorService.cs:180-196) is identical to the client's. It is modelled once, as `CoinGecko.GetCryptoName`.
- Monitor.AddHandles: requires the new keys to be distinct and absent, so every `TryAdd` succeeds. That holds for the registry's ids. The source's skip of an existing key is not exercised.
- Monitor.CryptoPriceMonitorService.RunIteration: covers one pass of the loop, not the loop's lifetime.
