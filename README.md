# Certificate and network monitor: a Dafny model of the monitoring core

The Android app monitors a fixed set of web pages, DNS host names and certificate
revocation lists (CRLs) of a PIV infrastructure. It checks them all in one run, lets the
user retest one entry, and shows the results grouped under "URLs", "DNS Hosts" and
"CRLs". This project models the decisions that core makes and proves properties of them:

- **CRL verifier.** `CrlVerification` covers the warning threshold in its preference
  store. It also covers the validity window of a parsed CRL: thisUpdate and nextUpdate,
  as in section 5.1.2.4 and 5.1.2.5 of RFC 5280, compared with the current time. Last, it
  covers the download: HTTP status, unreadable body, the one retry after an SSL error,
  and any other error. The source's early-return methods are the class methods
  `CrlVerifier.ParseAndValidateCrl` and `CrlVerifier.Verify`. Each is proved equal to a
  specification function (`ParseAndValidate`, `VerifyCrl`), and those functions carry
  the lemmas.
- **DNS resolver.** `DnsResolver` covers host-name normalisation (trim, URL to host, one
  trailing dot, IDN). It covers the ping of one address with four command candidates and
  the `isReachable` fallback, and resolution with its timeout, lookup-error and
  resolved outcomes, log lines included.
- **Configuration store.** `Configuration` covers the three lists kept as JSON arrays
  under fixed keys. A first read seeds the defaults; an empty or undecodable value falls
  back to them.
- **List editor.** `ConfigList` covers the settings screen's list of one kind: add,
  edit and delete, each accepted change saved under that kind's key.
- **CRL detail screen.** `CrlDetail` covers the revoked-count and date texts and the
  time left until nextUpdate.
- **Monitor view model.** `Monitor` covers the full run, its URL and CRL status
  messages, an exception contained to one CRL, the retest of one entry, and the grouped
  list.

The network, the X.509 decoder, the system clock and the Android platform are inputs.
`Attempt` is the outcome of a connection attempt. `ParseOutcome` is what the decoder
yields. `Lookup`, `CommandOutcome` and `ReachOutcome` answer the DNS and ping calls.
`Platform` holds date formatting, `URI.host`, `IDN.toASCII` and the
NullPointerException. The view model's collaborators are a `Services` value.
`Monitor.Wired` builds one from the resolver and verifier models over a `Network` of
answers, and lemmas about `Wired` carry the verifier's and resolver's guarantees into
the view model.

Where the code and its design notes disagree, the model follows the code:

- A CRL the decoder rejects reports "Failed to parse CRL: …". "Parse error: …" appears
  when the 200 branch throws outside the decoder, that is, when opening or closing the
  response body throws; a close that throws after a successful parse discards that
  parse result.
- `now == thisUpdate` counts as expired, because both comparisons are strict.
- After an SSL error, a failed retry reports the message of the original SSL
  exception.
- There are four ping candidates.
- A CRL without nextUpdate, checked after its thisUpdate, makes `Date.before(null)`
  throw. That is caught as a parse failure (`ComparesNullNextUpdate`).

## Model

| member | source | states |
|---|---|---|
| CrlVerification.ThresholdDefault | app/src/main/java/com/monitor/util/CRLVerifier.kt:26-34 | with no store, or nothing stored under the key, the threshold is 3 hours |
| CrlVerification.ThresholdSetThenGet | app/src/main/java/com/monitor/util/CRLVerifier.kt:32-42 | a set is what the next get returns when a store exists; without one the set is a no-op and the get stays 3 |
| CrlVerification.CrlVerifier.SetWarningThresholdHours | app/src/main/java/com/monitor/util/CRLVerifier.kt:39-42 | the store gains the threshold key and nothing else changes; the getter then reports the new value |
| CrlVerification.CrlVerifier.ParseAndValidateCrl | app/src/main/java/com/monitor/util/CRLVerifier.kt:209-270 | the step-by-step parse check, with its early returns and warnings list, equals `ParseAndValidate` at the stored threshold |
| CrlVerification.CrlVerifier.Verify | app/src/main/java/com/monitor/util/CRLVerifier.kt:61-193 | the step-by-step verification, with its reassigned locals and early returns, equals `VerifyCrl` at the stored threshold |
| CrlVerification.ValidIffStrictlyInsideWindow | app/src/main/java/com/monitor/util/CRLVerifier.kt:226 | a parsed CRL is valid exactly when nextUpdate exists and thisUpdate < now < nextUpdate |
| CrlVerification.NotYetValid | app/src/main/java/com/monitor/util/CRLVerifier.kt:232-236 | before thisUpdate the result is invalid with a "CRL not yet valid" message |
| CrlVerification.ExpiredOtherwise | app/src/main/java/com/monitor/util/CRLVerifier.kt:237-241 | every other invalid parsed CRL, now == thisUpdate included, reports "CRL has expired" |
| CrlVerification.WarningIffBelowThreshold | app/src/main/java/com/monitor/util/CRLVerifier.kt:245-259 | a valid CRL has a warning exactly when the whole hours left are below the threshold, that is, when less than threshold hours remain |
| CrlVerification.ParsedKeepsFields | app/src/main/java/com/monitor/util/CRLVerifier.kt:229 | a decoded CRL reports its thisUpdate, nextUpdate and revoked count, a null revoked list counting 0 |
| CrlVerification.ParseFailureShape | app/src/main/java/com/monitor/util/CRLVerifier.kt:264-268 | a decoder exception, and a null nextUpdate compared after thisUpdate, give invalid with "Failed to parse CRL: " and no dates or count |
| CrlVerification.InvalidParseHasMessage | app/src/main/java/com/monitor/util/CRLVerifier.kt:232-241 | an invalid parse always carries a non-empty message |
| CrlVerification.ValidParseHasDates | app/src/main/java/com/monitor/util/CRLVerifier.kt:257-263 | a valid parse carries both dates, with now strictly between them |
| CrlVerification.OkMeansDownloaded | app/src/main/java/com/monitor/util/CRLVerifier.kt:96-124 | a 200 whose body reaches the decoder is downloaded, and the parse result passes through unchanged |
| CrlVerification.OkWithUnreadableBody | app/src/main/java/com/monitor/util/CRLVerifier.kt:125-130 | a 200 whose body cannot be opened or closed is downloaded, invalid, with "Parse error: " and the exception's message |
| CrlVerification.NonOkStatus | app/src/main/java/com/monitor/util/CRLVerifier.kt:131-139 | any other status is not downloaded, invalid, with "HTTP Error: <code>" |
| CrlVerification.RetryOnlyAfterSslError | app/src/main/java/com/monitor/util/CRLVerifier.kt:140-143 | the retry's outcome matters only after an SSL exception |
| CrlVerification.SslRetryOutcomes | app/src/main/java/com/monitor/util/CRLVerifier.kt:158-179 | a 200 retry with a readable body is downloaded with "SSL warning - "; another status gives "SSL error and retry failed: "; a retry that throws, or whose body throws, gives "SSL error: "; both failure texts use the first exception's message |
| CrlVerification.OtherErrorOutcome | app/src/main/java/com/monitor/util/CRLVerifier.kt:180-185 | any other exception gives "Error: " with its message, or its class's simple name when the message is null |
| CrlVerification.InvalidResultHasMessage | app/src/main/java/com/monitor/util/CRLVerifier.kt:61-193 | every invalid result explains itself, and a valid one was downloaded, has both dates and lies strictly inside its window |
| DnsResolver.Normalize | app/src/main/java/com/monitor/util/DnsResolver.kt:47-58 | the step-by-step rewriting of `h` equals `NormalizeHostname` |
| DnsResolver.DropsExactlyOneDot | app/src/main/java/com/monitor/util/DnsResolver.kt:56 | a trailing dot is removed, exactly one, and nothing else changes |
| DnsResolver.NormalizeKeepsNormalName | app/src/main/java/com/monitor/util/DnsResolver.kt:47-58 | a trimmed name without "://", without a trailing dot and already ASCII comes back unchanged |
| DnsResolver.NormalizeIgnoresPadding | app/src/main/java/com/monitor/util/DnsResolver.kt:48 | whitespace around the input does not change the normalised name |
| DnsResolver.NormalizeUrlToHost | app/src/main/java/com/monitor/util/DnsResolver.kt:50-57 | a URL with a host normalises to that host, one trailing dot dropped, after the IDN step |
| DnsResolver.PingOne | app/src/main/java/com/monitor/util/DnsResolver.kt:139-194 | the ping result names its address and has a latency whenever it succeeded |
| DnsResolver.PingIp | app/src/main/java/com/monitor/util/DnsResolver.kt:139-194 | the candidate loop returns the `PingOne` result and appends exactly its log lines to the shared log |
| DnsResolver.PingResultShape | app/src/main/java/com/monitor/util/DnsResolver.kt:147-193 | from any list of candidates the result names the address, a success has a latency, and at least two lines are logged |
| DnsResolver.FirstSuccessWins | app/src/main/java/com/monitor/util/DnsResolver.kt:147-178 | the first candidate that exits with 0 decides the result (its latency and output), after exactly two log lines per candidate tried |
| DnsResolver.FallbackWhenNoneSucceeds | app/src/main/java/com/monitor/util/DnsResolver.kt:181-193 | when no candidate succeeds, the `isReachable` fallback decides, after two lines per candidate and ending with the fallback's two lines |
| DnsResolver.FallbackFailure | app/src/main/java/com/monitor/util/DnsResolver.kt:190-193 | an exception in `isReachable` gives a failed result without latency |
| DnsResolver.PingEach | app/src/main/java/com/monitor/util/DnsResolver.kt:112 | the map over the addresses yields `PingAll`'s results and appends its log lines in order |
| DnsResolver.ResolveWithPing | app/src/main/java/com/monitor/util/DnsResolver.kt:64-134 | the step-by-step resolution equals `Resolution` |
| DnsResolver.Resolve | app/src/main/java/com/monitor/util/DnsResolver.kt:36-39 | the (isUp, errorMessage) pair is that of `Resolution` |
| DnsResolver.PingAllMatchesAddresses | app/src/main/java/com/monitor/util/DnsResolver.kt:112 | exactly one ping result per address, in address order, each naming its address |
| DnsResolver.TimeoutShape | app/src/main/java/com/monitor/util/DnsResolver.kt:85-95 | a timeout is down with "DNS resolution timeout" and no addresses or pings |
| DnsResolver.LookupErrorShape | app/src/main/java/com/monitor/util/DnsResolver.kt:97-107 | a lookup exception is down with its message and no addresses or pings |
| DnsResolver.ResolvedShape | app/src/main/java/com/monitor/util/DnsResolver.kt:109-122 | after a lookup: the non-null addresses, one ping per address, up exactly when some address came back, and the "No IP addresses" error exactly when none did |
| DnsResolver.UpIgnoresPings | app/src/main/java/com/monitor/util/DnsResolver.kt:113-117 | up and the error message do not depend on the ping outcomes |
| DnsResolver.LogsStartWithResolving | app/src/main/java/com/monitor/util/DnsResolver.kt:65-112 | the log opens with the "Resolving hostname" line, and after a lookup the ping lines follow in address order |
| Configuration.Saved | app/src/main/java/com/monitor/util/ConfigurationManager.kt:45-49 | the list is stored under its key and every other key keeps its value |
| Configuration.Loaded | app/src/main/java/com/monitor/util/ConfigurationManager.kt:54-80 | the result is the stored list when present, decodable and non-empty, and the defaults otherwise; non-empty defaults give a non-empty result |
| Configuration.StoreAfterLoad | app/src/main/java/com/monitor/util/ConfigurationManager.kt:75-78 | only a first read, with nothing under the key, writes anything, and what it writes is the defaults |
| Configuration.ConfigurationManager.SaveList | app/src/main/java/com/monitor/util/ConfigurationManager.kt:45-49 | the store becomes `Saved` of the old store |
| Configuration.ConfigurationManager.LoadList | app/src/main/java/com/monitor/util/ConfigurationManager.kt:54-80 | the element-by-element copy returns `Loaded`, and the store becomes `StoreAfterLoad` |
| Configuration.ConfigurationManager.GetUrls | app/src/main/java/com/monitor/util/ConfigurationManager.kt:85-87 | the URLs are loaded under "monitor_urls" with the default URLs |
| Configuration.ConfigurationManager.SaveUrls | app/src/main/java/com/monitor/util/ConfigurationManager.kt:92-94 | the URLs are saved under "monitor_urls" |
| Configuration.ConfigurationManager.GetDnsHosts | app/src/main/java/com/monitor/util/ConfigurationManager.kt:99-101 | the hosts are loaded under "monitor_dns_hosts" with the default hosts |
| Configuration.ConfigurationManager.SaveDnsHosts | app/src/main/java/com/monitor/util/ConfigurationManager.kt:106-108 | the hosts are saved under "monitor_dns_hosts" |
| Configuration.ConfigurationManager.GetCrlUrls | app/src/main/java/com/monitor/util/ConfigurationManager.kt:113-115 | the CRL addresses are loaded under "monitor_crl_urls" with the default CRLs |
| Configuration.ConfigurationManager.SaveCrlUrls | app/src/main/java/com/monitor/util/ConfigurationManager.kt:120-122 | the CRL addresses are saved under "monitor_crl_urls" |
| Configuration.FirstLoadSeedsDefaults | app/src/main/java/com/monitor/util/ConfigurationManager.kt:75-78 | a first read returns and seeds the defaults; the next read returns them and writes nothing |
| Configuration.UnusableValueFallsBack | app/src/main/java/com/monitor/util/ConfigurationManager.kt:64-74 | a stored empty list or undecodable value reads as the defaults and is left in place |
| Configuration.SaveThenLoad | app/src/main/java/com/monitor/util/ConfigurationManager.kt:45-80 | a saved non-empty list is what the next read of that key returns, whatever the defaults, and the read writes nothing |
| Configuration.SaveKeepsOtherKeys | app/src/main/java/com/monitor/util/ConfigurationManager.kt:45-49 | saving under one key does not change what another key reads |
| Configuration.ConfiguredListsIndependent | app/src/main/java/com/monitor/util/ConfigurationManager.kt:17-19 | the three keys differ, so saving one list leaves the other two as they read before |
| Configuration.ConfiguredListsNeverEmpty | app/src/main/java/com/monitor/util/ConfigurationManager.kt:22-39 | none of the three getters can return an empty list |
| ConfigList.Submitted | app/src/main/java/com/monitor/ui/settings/ConfigListFragment.kt:116-130 | empty trimmed text changes nothing; an edit position inside the list overwrites just that entry; any other position appends the trimmed text |
| ConfigList.Deleted | app/src/main/java/com/monitor/ui/settings/ConfigListFragment.kt:137-150 | a position inside the list removes exactly that entry and keeps the order of the rest; any other position changes nothing |
| ConfigList.ConfigListFragment.LoadEntries | app/src/main/java/com/monitor/ui/settings/ConfigListFragment.kt:83-90 | the entries become the list of the fragment's kind (empty without a kind), and the store changes as that read changes it |
| ConfigList.ConfigListFragment.SaveEntries | app/src/main/java/com/monitor/ui/settings/ConfigListFragment.kt:92-99 | the entries are saved under the key of the fragment's kind; without a kind nothing is saved |
| ConfigList.ConfigListFragment.ConfirmEdit | app/src/main/java/com/monitor/ui/settings/ConfigListFragment.kt:116-130 | a rejected text changes neither the entries nor the store; an accepted one sets the entries to `Submitted` and saves them |
| ConfigList.ConfigListFragment.DeleteEntry | app/src/main/java/com/monitor/ui/settings/ConfigListFragment.kt:137-150 | a confirmed delete inside the list removes that entry and saves; otherwise nothing changes |
| ConfigList.PaddingIgnored | app/src/main/java/com/monitor/ui/settings/ConfigListFragment.kt:117 | whitespace typed around a value does not change the outcome |
| ConfigList.BlankRejected | app/src/main/java/com/monitor/ui/settings/ConfigListFragment.kt:117-129 | an all-blank entry is rejected at every position |
| ConfigList.AddThenDeleteLast | app/src/main/java/com/monitor/ui/settings/ConfigListFragment.kt:101-150 | adding an entry and deleting the last position gives back the list |
| ConfigList.EditToSameValue | app/src/main/java/com/monitor/ui/settings/ConfigListFragment.kt:119-121 | editing an entry to its own value changes nothing |
| ConfigList.AcceptedChangePersists | app/src/main/java/com/monitor/ui/settings/ConfigListFragment.kt:116-130 | every accepted add or edit is what the next load of that kind returns |
| ConfigList.DeletingLastEntryRestoresDefaults | app/src/main/java/com/monitor/ui/settings/ConfigListFragment.kt:137-150 | deleting the only entry stores an empty list, which the next load replaces with the defaults |
| CrlDetail.TimeRemaining | app/src/main/java/com/monitor/ui/crl/CrlDetailFragment.kt:86-105 | unknown exactly without nextUpdate, expired exactly when no time is left, otherwise non-negative hours and minutes below 60 |
| CrlDetail.HoursAndMinutesSplitMinutes | app/src/main/java/com/monitor/ui/crl/CrlDetailFragment.kt:92-95 | the hours and minutes shown are the whole minutes left, split at the hour, and the hours are the whole hours left |
| CrlDetail.DetailAgreesWithVerifier | app/src/main/java/com/monitor/ui/crl/CrlDetailFragment.kt:86-101 | with the verifier's clock read at or before the screen's: a valid CRL has a nextUpdate after the verification and shows time left exactly while the screen's time is before it; one already expired at the verification time was never reported valid and still shows as expired |
| CrlDetail.RevokedCountText | app/src/main/java/com/monitor/ui/crl/CrlDetailFragment.kt:73-77 | the "unknown" text appears exactly when the count is null |
| CrlDetail.ThisUpdateText | app/src/main/java/com/monitor/ui/crl/CrlDetailFragment.kt:80-84 | the line starts with "thisUpdate: ", and reads "unknown" when the date is null |
| CrlDetail.NextUpdateText | app/src/main/java/com/monitor/ui/crl/CrlDetailFragment.kt:86-87 | the line starts with "nextUpdate: ", and reads "unknown" when the date is null |
| CrlDetail.TimeRemainingText | app/src/main/java/com/monitor/ui/crl/CrlDetailFragment.kt:92-104 | the "unknown" text appears exactly without nextUpdate, and "CRL has EXPIRED" exactly when no time is left |
| Monitor.NullIfEmpty | app/src/main/java/com/monitor/ui/monitor/MonitorViewModel.kt:70 | null exactly for the empty string, otherwise the string itself |
| Monitor.UrlMessageJoinsParts | app/src/main/java/com/monitor/ui/monitor/MonitorViewModel.kt:62-70 | the URL message is the non-empty error and the warning joined by " \| ", and null when neither is there |
| Monitor.CrlMessageLayout | app/src/main/java/com/monitor/ui/monitor/MonitorViewModel.kt:96-111 | the CRL message opens with the first branch's text, and is "<text> \| Valid: …" whenever both dates are known |
| Monitor.CrlPrefixCases | app/src/main/java/com/monitor/ui/monitor/MonitorViewModel.kt:97-101 | the first branch: not downloaded, invalid (with the fallback text), or a warning, each in that order |
| Monitor.UrlStatus | app/src/main/java/com/monitor/ui/monitor/MonitorViewModel.kt:60-78 | a URL status carries the URL, the checker's up flag and the certificate's validity period |
| Monitor.DnsStatus | app/src/main/java/com/monitor/ui/monitor/MonitorViewModel.kt:81-84 | a DNS status carries the host and no validity period |
| Monitor.CrlVerifiedStatus | app/src/main/java/com/monitor/ui/monitor/MonitorViewModel.kt:91-92 | a CRL is up exactly when it was downloaded and is valid |
| Monitor.FullRunLayout | app/src/main/java/com/monitor/ui/monitor/MonitorViewModel.kt:57-126 | exactly one status per configured entry, in the order URLs, hosts, CRLs, each built as its kind requires and named after its entry |
| Monitor.FullRunAt | app/src/main/java/com/monitor/ui/monitor/MonitorViewModel.kt:57-126 | entry i of a full run is the status of the i-th configured name, of its list's kind |
| Monitor.CrlFaultIsContained | app/src/main/java/com/monitor/ui/monitor/MonitorViewModel.kt:122-125 | an exception while building one CRL's status marks it down with "Error: …", and every entry of another name is as it would have been without the exception |
| Monitor.CrlDownHasMessage | app/src/main/java/com/monitor/ui/monitor/MonitorViewModel.kt:96-111 | a CRL whose verified result leaves it down always has a non-empty message |
| Monitor.CrlDownloadedNeverShown | app/src/main/java/com/monitor/ui/monitor/MonitorViewModel.kt:107-110 | on an explained result the full run's "CRL downloaded" fallback never fires, so the full run and retest messages agree |
| Monitor.FullRunCrlDownHasMessage | app/src/main/java/com/monitor/ui/monitor/MonitorViewModel.kt:88-126 | every downed CRL of a full run explains itself |
| Monitor.WiredExplains | app/src/main/java/com/monitor/ui/monitor/MonitorViewModel.kt:91 | every result of the verifier model is explained |
| Monitor.WiredDnsStatus | app/src/main/java/com/monitor/ui/monitor/MonitorViewModel.kt:81-84 | with the resolver model a host is up exactly when the lookup returned some address; a timeout or lookup error gives its text |
| Monitor.CheckAll | app/src/main/java/com/monitor/ui/monitor/MonitorViewModel.kt:60-126 | one `forEach` appends the statuses of all its names, in order |
| Monitor.RunAll | app/src/main/java/com/monitor/ui/monitor/MonitorViewModel.kt:57-128 | the three loops build exactly `FullRun` |
| Monitor.IndexOfFirst | app/src/main/java/com/monitor/ui/monitor/MonitorViewModel.kt:147 | the first position holding the name, or -1 exactly when no entry holds it |
| Monitor.RetestStatus | app/src/main/java/com/monitor/ui/monitor/MonitorViewModel.kt:155-197 | a status is produced for every kind but the unknown one, and carries the name |
| Monitor.Retested | app/src/main/java/com/monitor/ui/monitor/MonitorViewModel.kt:144-211 | nothing changes when the name is absent or cannot be retested; otherwise only its first entry is replaced, by the retest's status |
| Monitor.RetestIdempotent | app/src/main/java/com/monitor/ui/monitor/MonitorViewModel.kt:144-211 | retesting twice against the same answers is retesting once |
| Monitor.RetestAgreesWithFullRun | app/src/main/java/com/monitor/ui/monitor/MonitorViewModel.kt:155-208 | retesting an entry right after a full run, under the kind the run filed it, reproduces the list |
| Monitor.RetestAtAgreesWithFullRun | app/src/main/java/com/monitor/ui/monitor/MonitorViewModel.kt:144-208 | with no name configured twice, retesting the entry at any position right after a full run reproduces the list |
| Monitor.MonitoredNamesDistinct | app/src/main/java/com/monitor/ui/monitor/MonitorViewModel.kt:36-53 | the monitored names are pairwise different |
| Monitor.MonitoredNamesClassified | app/src/main/java/com/monitor/ui/monitor/MonitorViewModel.kt:157-192 | the retest's shape test files each monitored name under the kind of its list |
| Monitor.RetestMonitoredAgreesWithFullRun | app/src/main/java/com/monitor/ui/monitor/MonitorViewModel.kt:36-211 | right after a full run on the monitored lists, retesting any monitored entry against the same answers changes nothing |
| Monitor.ThresholdWarningInStatus | app/src/main/java/com/monitor/ui/monitor/MonitorViewModel.kt:91-111 | a CRL whose first download parses inside its window is up, and its status message opens with "Warning: " exactly when fewer hours than the threshold it was verified at remain |
| Monitor.SetThresholdReachesNextRun | app/src/main/java/com/monitor/ui/monitor/MonitorViewModel.kt:88-111 | once the verifier's store holds a new threshold, a CRL inside its window that downloads in one attempt is up in the next run, and its message opens with "Warning: " exactly when fewer hours than that threshold remain |
| Monitor.Find | app/src/main/java/com/monitor/ui/monitor/MonitorViewModel.kt:237 | none exactly when no status has the name; a found status has the name |
| Monitor.FindIsIndexOfFirst | app/src/main/java/com/monitor/ui/monitor/MonitorViewModel.kt:147-237 | `find` and `indexOfFirst` select the same entry |
| Monitor.SectionItemsRows | app/src/main/java/com/monitor/ui/monitor/MonitorViewModel.kt:236-245 | a section's rows are statuses of its kind, at most one per configured name, each named after one |
| Monitor.SectionItemsAllFound | app/src/main/java/com/monitor/ui/monitor/MonitorViewModel.kt:236-245 | there is one row per name exactly when every name has a status, and then row i is name i's first status |
| Monitor.HeaderOnlyAtTop | app/src/main/java/com/monitor/ui/monitor/MonitorViewModel.kt:234-235 | a section has its header exactly when its list is non-empty, first, and no other header row |
| Monitor.OtherHeaderAbsent | app/src/main/java/com/monitor/ui/monitor/MonitorViewModel.kt:234-276 | a section holds no header but its own |
| Monitor.HeadersIffConfigured | app/src/main/java/com/monitor/ui/monitor/MonitorViewModel.kt:230-279 | each of the three headers appears exactly when its list is non-empty |
| Monitor.GroupedAfterFullRun | app/src/main/java/com/monitor/ui/monitor/MonitorViewModel.kt:137 | after a full run every configured name has a status, and the grouped list has one row per entry plus one header per non-empty list |
| Monitor.AddSection | app/src/main/java/com/monitor/ui/monitor/MonitorViewModel.kt:234-246 | the section loop appends exactly `Section` |
| Monitor.GroupItems | app/src/main/java/com/monitor/ui/monitor/MonitorViewModel.kt:230-279 | the three sections build exactly `Grouped` |
| Monitor.MonitorViewModel.constructor | app/src/main/java/com/monitor/ui/monitor/MonitorViewModel.kt:36-53 | the view model monitors the fixed lists and has posted nothing |
| Monitor.MonitorViewModel.StartMonitoring | app/src/main/java/com/monitor/ui/monitor/MonitorViewModel.kt:55-139 | the posted statuses are `FullRun` over the network's answers with the CRLs verified at the threshold stored in this view model's `crlVerifier`, the items are their grouping, and the time is formatted now |
| Monitor.MonitorViewModel.RetestItem | app/src/main/java/com/monitor/ui/monitor/MonitorViewModel.kt:144-211 | nothing is posted when `Retested` declines; otherwise the statuses become `Retested`, a CRL verified at the threshold stored in `crlVerifier`, regrouped and timestamped |
| Monitor.MonitorViewModel.RetestWith | app/src/main/java/com/monitor/ui/monitor/MonitorViewModel.kt:146-208 | the early return, the `when` on the name's shape and the in-place replacement post exactly what `Retested` gives for the collaborators passed in |
| Monitor.MonitorViewModel.SetCrlWarningThresholdHours | app/src/main/java/com/monitor/ui/monitor/MonitorViewModel.kt:216-218 | the verifier's store gains the new threshold |
| Monitor.MonitorViewModel.GetCrlWarningThresholdHours | app/src/main/java/com/monitor/ui/monitor/MonitorViewModel.kt:223-225 | the verifier's stored threshold, 3 by default |
| Common.TrimIgnoresPadding | app/src/main/java/com/monitor/ui/settings/ConfigListFragment.kt:117 | whitespace around a value does not change what `trim()` makes of it |
| Common.TrimIdempotent | app/src/main/java/com/monitor/ui/settings/ConfigListFragment.kt:117 | trimming twice is trimming once |

## Left out

- X.509 decoding is the input `ParseOutcome`. The permissive TLS trust manager and
  hostname verifier are not modelled. The HTTP connection and its streams are
  `Attempt` outcomes.
- The DNS lookup's thread, latch and 5000 ms timeout are the `Lookup` oracle. The ping
  processes, their output streams, `isReachable` and `System.nanoTime` are the
  `CommandOutcome` and `ReachOutcome` oracles.
- `IDN.toASCII`, `URI`, `Date.toString` and `SimpleDateFormat` are `Platform`
  functions. An exception from `URI` or `IDN` is their returning None.
- `NetworkMonitor.checkUrl` is the input `UrlCheck`. It is not part of this model.
- The view model's collaborators are `Services` functions. Coroutines, dispatchers and
  LiveData posts are sequential steps.
- `Wired` fixes the warning threshold and the current time for the whole run. The
  source reads `Date()` once per CRL. The CRL detail screen's own clock read is a
  separate time, no earlier than the verifier's.
- SharedPreferences and `JSONArray` are the `Store` map. A value the JSON decoder
  rejects is `Malformed`.
- The outer `catch` in `resolveWithPing` (DnsResolver.kt:123-133) cannot be reached in
  the model, because every part that could throw there is an oracle with its own
  error outcome.
- Monitor.MonitorViewModel.RetestItem: has no exception path, as in the source, whose
  CRL branch has no try/catch. A throwing retest is not modelled.
- `ConfigType.valueOf` failing on an unknown argument string is not modelled. The
  fragment's kind is an `Option<ConfigType>`.
- ConfigList.ConfigListFragment.DeleteEntry: takes a `nat` position (a negative `Int`
  would throw in `removeAt`). The confirmation dialog is the `confirmed` parameter.
- Arithmetic is unbounded. `Long` overflow in the time differences is not modelled.
- `ignoreCase` comparison folds ASCII letters only.
- UI rendering, colours, toasts and the adapter are not modelled. The DNS lookup part
  of the CRL detail screen is not modelled.
- CrlDetail.ThisUpdateText: states the prefix and the unknown case only. The formatted
  date is an uninterpreted platform string.
- CrlDetail.NextUpdateText: states the prefix and the unknown case only, for the same
  reason.
