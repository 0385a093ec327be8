# Mugen POAP mint — a Dafny model

This project models the client side of the Mugen POAP event app. The app has four parts:

- **The routed mint page.** A visitor arrives, often by scanning a QR code. They connect a wallet and mint a proof-of-attendance token. They then check whether they are eligible for a soul-bound credential, and claim it.
- **The rotating QR generator.** Every refresh interval it builds a new, time-stamped mint-page URL and counts the refresh.
- **The organizer dashboard.** A password gate stored in local storage, the event configuration, a statistics card polled from the shared analytics record, export and clear.
- **The legacy mint page.** It sorts failed mints into three kinds and derives a preview address from the token's metadata URI.

The browser's local storage is one shared object, `Analytics.Store`. It holds two entries:

- the `mugen-qr-stats` record;
- the `mugen-organizer-auth` flag.

The routed mint page, the QR generator and the dashboard each keep a reference to that store; the legacy page does not use local storage. Every writer performs the same read–default–increment–stamp–write cycle, `Analytics.Bump`. This lets the model state how one component's writes show up in another. The lemma `Dashboard.ShowAfterBump` does this for the dashboard. The lemma `QrHandoff.QrUrlArrival` states that a scanned code opens the mint page in QR mode with the generator's event id.

Modules, one per file:

- `Wrappers` — `Option`.
- `Decimal` — `Number#toString` for whole numbers, with a read-back function `Value`.
- `Strings` — `indexOf` and first-occurrence `replace`.
- `UrlQuery` — `location.search` and `URLSearchParams`.
- `Analytics` — the stats record and the store.
- `MintPage`, `QrGenerator`, `Dashboard`, `LegacyMintPage` — the four components.
- `QrHandoff` — the link between the generator and the mint page.

An asynchronous handler that changes state before an `await` is split there, so other events may run in between, as in the browser:

- A `Begin…` method covers the handler up to the `await` of its transaction or scoring call. For the eligibility check and the claim this includes the `await` of the wallet address; nothing changes before that `await`, and the signer it guards on is never unset.
- A `Finish…` method takes the settled outcome. The routed page's mint has two: `FinishMint` for the transaction (success message and `hasMinted`), then `FinishFetch` for the metadata fetch (image, count, reveal). The legacy page's "Already claimed" branch ends with `FinishReread`, the re-read of token 0.
- A handler whose first state change follows its only `await` is one method that takes the outcome: `connectWallet` on both pages.

Anything the code gets from the outside world is a parameter. This covers:

- the transaction outcome and the metadata fetch;
- the reputation score;
- the QR render, the clock (`nowMs`, ISO `stamp` strings) and the window width;
- environment variables, given as strings that are empty when unset;
- the confirmation dialog's answer.

## Behaviour worth noting

- **Step 3.** The routed page's step indicator reaches 3 when `hasMinted` is set. It does not wait for the eligibility check.
- **Handler guards.** The handlers check only for a signer. `handleAirdrop` never looks at eligibility; the interface does, through the desktop button's `disabled` and the condition for rendering the mobile claim step.
- **No "Already claimed" branch.** The routed page has none. Only the legacy page has it.
- **Corrupt JSON.** A corrupt stats entry makes `JSON.parse` throw. It does not default to an empty record (the model only has well-formed records).
- **QR timestamp.** The `t` parameter has whole-second resolution. Two refreshes in the same second produce the same URL.
- **Overlapping renders.** One `isGenerating` flag serves every render in flight: after two refreshes, the first render to complete clears it and enables "Refresh Now" while the other is still running. The model keeps this single flag (`Generator.Refresh`, `Generator.CompleteRender`).
- **`onScan`.** `QRGenerator` never calls it. The dashboard's scan callback is modelled as a method, and nothing calls it.

## Model

| member | source | states |
|---|---|---|
| Decimal.Render | src/components/QRGenerator.js:21-22 | the decimal text of `n` is non-empty digits without a leading zero that read back as `n` |
| Strings.IndexOf | src/MugenPOAPMintPage.js:112 | the result is the first occurrence of the pattern, or none when it occurs nowhere |
| Strings.ReplaceFirst | src/MugenPOAPMintPage.js:112 | only the first occurrence is replaced; a string without the pattern is unchanged |
| Strings.IndexOfFirstChar | src/components/MugenPOAPMintPage.js:42 | a character absent from `a` is first found right after `a` in `a + [c] + b`, which locates the `?`, `&` and `=` that split a query |
| UrlQuery.SearchOf | src/components/MugenPOAPMintPage.js:42 | `location.search` is empty or a `?` followed by a non-empty, fragment-free query |
| UrlQuery.Split | src/components/MugenPOAPMintPage.js:42 | the pieces hold no separator and joining them back with it gives the input |
| UrlQuery.SplitAfter | src/components/MugenPOAPMintPage.js:42 | splitting at a separator that the first part lacks yields that part, then the split of the rest |
| UrlQuery.Decode | src/components/MugenPOAPMintPage.js:42 | each `+` of a name or value becomes a space and every other character is kept, so the length is kept |
| UrlQuery.ParsePair | src/components/MugenPOAPMintPage.js:42 | a piece with `=` is split at its first `=`: the decoded text before it is the name, the decoded text after it (further `=` included) is the value; a piece without `=` is a name with an empty value |
| UrlQuery.ParsePieces | src/components/MugenPOAPMintPage.js:42 | when no piece is empty, each piece gives its own pair, in order; no name holds `=` |
| UrlQuery.ParsePiecesAppend | src/components/MugenPOAPMintPage.js:42 | parsing a list of pieces is parsing its two halves and joining the pair lists |
| UrlQuery.ParsePiecesSkipsEmpty | src/components/MugenPOAPMintPage.js:42 | an empty piece anywhere in the list contributes no pair |
| UrlQuery.Params | src/components/MugenPOAPMintPage.js:42 | no parsed name holds `=`; an empty search or a lone `?` gives no pairs; a search without `&` gives at most one |
| UrlQuery.ParamsOnePiece | src/components/MugenPOAPMintPage.js:42 | a search holding one piece gives no pair for an empty piece and exactly that piece's pair otherwise |
| UrlQuery.ParamsCons | src/components/MugenPOAPMintPage.js:42 | the pairs of `?a&b` are those of `?a` followed by those of `?b`, which with `ParamsOnePiece` fixes the pairs of every search |
| UrlQuery.ParseQuery | src/components/MugenPOAPMintPage.js:42 | splitting and parsing the `&`-joined `name=value` text of plain pairs gives the pairs back |
| UrlQuery.ParamsRoundTrip | src/components/MugenPOAPMintPage.js:42 | `URLSearchParams` of `?` and the query text of plain pairs is exactly those pairs, in order |
| UrlQuery.Get | src/components/MugenPOAPMintPage.js:43-44 | `get` returns the value of the first pair with the name, and none exactly when no pair has it |
| UrlQuery.ParseNamedPair | src/components/MugenPOAPMintPage.js:42-44 | a `name=value` piece of unreserved text parses to exactly that name and value |
| Analytics.Store.Read | src/components/OrganizerDashboard.js:34 | an absent stats entry reads as `{}`, in which every counter is 0; a stored record reads as itself |
| Analytics.Bump | src/components/MugenPOAPMintPage.js:53-56 | one increment raises only its counter by 1 (from 0 when missing), sets its stamp, and leaves every other counter and stamp as it was |
| Analytics.BumpMonotone | src/components/MugenPOAPMintPage.js:53-56 | no increment lowers any counter, so every figure only grows between clears |
| Analytics.BumpTwice | src/components/QRGenerator.js:57-60 | two increments of one counter raise it by 2, so sequential writers lose no count |
| Analytics.Store.Increment | src/components/QRGenerator.js:57-60 | the stored record becomes the bump of the record as read; the auth flag is untouched |
| Analytics.Store.ClearStats | src/components/OrganizerDashboard.js:90 | the entry is removed and every counter then reads 0 |
| Analytics.Store.SetOrganizerAuth | src/components/OrganizerDashboard.js:59 | the auth entry takes the given value, or is removed for none; the stats record is untouched |
| MintPage.DetectArrival | src/components/MugenPOAPMintPage.js:42-50 | QR mode exactly when `qr` is `mobile` and `eventId` is present and non-empty; the event id is kept only then |
| MintPage.StepFor | src/components/MugenPOAPMintPage.js:71-81 | the step is 4 iff airdropped, at least 3 iff minted or airdropped, at least 2 iff any flag is set |
| MintPage.StepMonotone | src/components/MugenPOAPMintPage.js:71-81 | flags that only switch on never lower the step |
| MintPage.DeepLink | src/components/MugenPOAPMintPage.js:88 | the deep link is the wallet's dapp prefix, then exactly the page's path, then exactly its query |
| MintPage.Message | src/components/MugenPOAPMintPage.js:325 | the status card renders exactly when the status is not the initial empty one |
| MintPage.Page.constructor | src/components/MugenPOAPMintPage.js:41-64 | mounting sets QR mode and event id from the query, counts and stamps a scan only in QR mode, and sets the mobile flag from the width |
| MintPage.Page.Resize | src/components/MugenPOAPMintPage.js:60-65 | only the mobile flag changes, to `width <= 768` |
| MintPage.Page.UpdateStep | src/components/MugenPOAPMintPage.js:71-81 | the step effect takes the highest set flag's step and agrees with `StepFor` once a signer exists |
| MintPage.Page.ConnectWallet | src/components/MugenPOAPMintPage.js:84-107 | without a provider: no state change, and the deep link opens only in QR or mobile mode. With a provider: a granted signer is kept (message only in QR mode), and a refusal sets the failure message. The step never goes back |
| MintPage.Page.BeginMint | src/components/MugenPOAPMintPage.js:110-112 | the transaction is sent exactly when a signer exists, showing only the in-progress message; otherwise nothing changes |
| MintPage.Page.FinishMint | src/components/MugenPOAPMintPage.js:120-126 | a failed transaction sets only the failure message; a confirmed one sets only the success message and `hasMinted`, and the step becomes 3 (4 after a claim) and never goes back; the fetch starts exactly on confirmation |
| MintPage.AfterFetch | src/components/MugenPOAPMintPage.js:129-145 | after the metadata fetch: its image and animation only when fetched, the reveal scheduled in QR mode, and every other field as it was |
| MintPage.Page.FinishFetch | src/components/MugenPOAPMintPage.js:128-145 | once the fetch settles the session is `AfterFetch` of it and one stamped mint is counted; the step does not change; the auth flag is untouched |
| MintPage.Page.RevealTimerFires | src/components/MugenPOAPMintPage.js:144 | the scheduled timer reveals the eligibility flow and nothing else |
| MintPage.Page.LearnMore | src/components/MugenPOAPMintPage.js:153-155 | only the eligibility flow is revealed |
| MintPage.Page.BeginCheck | src/components/MugenPOAPMintPage.js:159-163 | the score is requested exactly when a signer exists, showing only the checking message |
| MintPage.Page.FinishCheck | src/components/MugenPOAPMintPage.js:164-178 | a score marks the check done with eligibility `score >= 1` and the matching message; a failed call marks it done, not eligible, with its own message |
| MintPage.Page.BeginClaim | src/components/MugenPOAPMintPage.js:183-187 | the claim is sent exactly when a signer exists, whatever the eligibility, showing only the claiming message |
| MintPage.Page.FinishClaim | src/components/MugenPOAPMintPage.js:193-204 | only a confirmed claim sets `airdropped` and step 4; a failure sets only its message; the notice shows exactly for a confirmed QR-mode claim |
| MintPage.Page.MintEnabled | src/components/MugenPOAPMintPage.js:255-259 | the mobile mint button is not disabled (`!signer` at line 259) exactly from step 2 on; from step 3 it is replaced by the minted notice |
| MintPage.Page.CheckEnabled | src/components/MugenPOAPMintPage.js:280-284 | the mobile eligibility button is never enabled before step 3 or without a signer, and always enabled at step 3 |
| MintPage.Page.ClaimShownOnMobile | src/components/MugenPOAPMintPage.js:298 | the mobile claim step appears exactly for an eligible visitor, who then has a signer and a completed check |
| MintPage.Page.ClaimEnabledOnDesktop | src/components/MugenPOAPMintPage.js:399 | the desktop claim button is enabled exactly for an eligible visitor before step 4 |
| QrGenerator.Countdown | src/components/QRGenerator.js:71-76 | at 1 or below the countdown restarts at the period, otherwise it drops by one, and it stays in `[1, period]` |
| QrGenerator.RunTicksInRange | src/components/QRGenerator.js:69-78 | from any start in `[1, period]`, no number of ticks shows 0 or less |
| QrGenerator.RunTicksClosedForm | src/components/QRGenerator.js:69-78 | `q` whole periods plus `r` ticks from a reset fire exactly `q` refreshes and show `period - r` |
| QrGenerator.RunTicksFromReset | src/components/QRGenerator.js:69-78 | `n` ticks from a reset fire `n / period` refreshes and show `period - n % period` |
| QrGenerator.OnePeriodOneRefresh | src/components/QRGenerator.js:69-78 | one full period fires exactly one refresh; fewer ticks fire none |
| QrGenerator.Pad2 | src/components/QRGenerator.js:119 | seconds below 60 become exactly two digits that read back as the seconds |
| QrGenerator.FormatTime | src/components/QRGenerator.js:116-120 | the text is minutes without a leading zero, a colon and two-digit seconds; the parts read back as `seconds / 60` and `seconds % 60` |
| QrGenerator.Generator.constructor | src/components/QRGenerator.js:13-17 | mounting starts one counted refresh, sets the countdown to the period and reads the scan total |
| QrGenerator.Generator.Refresh | src/components/QRGenerator.js:51-61 | the new URL is `QrUrl` of now; a render starts, which disables "Refresh Now"; the countdown resets; one refresh is counted and stamped; the shown image and URL are unchanged |
| QrGenerator.Generator.CompleteRender | src/components/QRGenerator.js:27-48 | a successful render replaces image and URL together; a failed one keeps both; either way the generating flag drops and "Refresh Now" is enabled again |
| QrGenerator.Generator.Tick | src/components/QRGenerator.js:69-78 | a tick refreshes exactly when the countdown was at 1 or below, follows `Countdown`, keeps the countdown in range, and leaves the image, the URL and the scan total alone |
| Dashboard.UpdateConfig | src/components/OrganizerDashboard.js:80-85 | the named field takes the new value and the other two are kept |
| Dashboard.UpdateConfigLastWins | src/components/OrganizerDashboard.js:80-85 | two edits of one field keep only the second |
| Dashboard.UpdateConfigCommutes | src/components/OrganizerDashboard.js:80-85 | edits of two different fields commute |
| Dashboard.ErrorMessage | src/components/OrganizerDashboard.js:135 | the login error paragraph renders exactly for an invalid password |
| Dashboard.ShowStats | src/components/OrganizerDashboard.js:33-41 | each figure is its counter defaulted to 0; last activity shows only for a present, non-empty stamp |
| Dashboard.ShowEmpty | src/components/OrganizerDashboard.js:91-97 | the `{}` an absent record reads as shows exactly the zeros a cleared dashboard shows |
| Dashboard.ShowAfterBump | src/components/OrganizerDashboard.js:33-41 | after any writer's increment only that writer's figure rises by one; last activity moves only for `lastActivity` writers; active users never change |
| Dashboard.LoginInvisible | src/components/OrganizerDashboard.js:61-65 | an organizer login leaves the whole statistics card unchanged |
| Dashboard.ExportFileName | src/components/OrganizerDashboard.js:114 | the name is `mugen-stats-`, digits without a leading zero that read back as the time, and `.json` |
| Dashboard.ExportFileNamesDistinct | src/components/OrganizerDashboard.js:114 | exports at different milliseconds get different names |
| Dashboard.OrganizerDashboard.constructor | src/components/OrganizerDashboard.js:9-44 | the event id from the environment or `mugen-la-2025`, the fixed base URL and 30000 ms interval; authenticated exactly when the stored flag is `"true"`; statistics read once |
| Dashboard.OrganizerDashboard.TypePassword | src/components/OrganizerDashboard.js:131 | the password field takes the typed text |
| Dashboard.OrganizerDashboard.Poll | src/components/OrganizerDashboard.js:33-47 | the card shows `ShowStats` of the record as stored now |
| Dashboard.OrganizerDashboard.HandleLogin | src/components/OrganizerDashboard.js:52-70 | success iff the typed password equals the environment's or `mugen2025`. Success authenticates, persists the flag so a remount restores it, and counts a stamped login. Failure sets the error, clears the input and stores nothing |
| Dashboard.OrganizerDashboard.HandleLogout | src/components/OrganizerDashboard.js:73-77 | the flag drops, the input is emptied and the stored flag is removed so a remount does not restore it; the record is untouched |
| Dashboard.OrganizerDashboard.UpdateEventConfig | src/components/OrganizerDashboard.js:80-85 | the config becomes `UpdateConfig` of the old one |
| Dashboard.OrganizerDashboard.ClearStats | src/components/OrganizerDashboard.js:88-98 | only a confirmed clear removes the record, and the zeros it shows agree with what a re-read would show |
| Dashboard.OrganizerDashboard.ExportStats | src/components/OrganizerDashboard.js:108-117 | the document is the record as parsed (all zeros when absent) under `ExportFileName` of now |
| Dashboard.OrganizerDashboard.OnScan | src/components/OrganizerDashboard.js:294-300 | the callback counts one scan stamped as activity |
| Dashboard.OrganizerDashboard.SetFullscreen | src/components/OrganizerDashboard.js:166 | the fullscreen flag takes the given value |
| QrHandoff.SearchOfQrUrl | src/components/QRGenerator.js:22 | `location.search` of a generated URL is `?` followed by the generated query |
| QrHandoff.ParamsOfQuery | src/components/MugenPOAPMintPage.js:42-45 | the generated query parses to the pairs `eventId`, `qr`, `t`, `source`, in that order, with the generator's values |
| QrHandoff.QrUrlArrival | src/components/MugenPOAPMintPage.js:41-50 | a scanned code opens QR mode exactly when its event id is non-empty, with that event id, and `t` reads back as the generation time in seconds |
| LegacyMintPage.Classify | src/MugenPOAPMintPage.js:42-52 | "Already claimed" wins over any code; otherwise `CALL_EXCEPTION` means the mint window; anything else is generic |
| LegacyMintPage.Message | src/MugenPOAPMintPage.js:128 | the status line is empty exactly before the first mint attempt |
| LegacyMintPage.PreviewUrl | src/MugenPOAPMintPage.js:112 | a URI containing neither pattern is its own preview address |
| LegacyMintPage.PreviewExtension | src/MugenPOAPMintPage.js:112 | the first `.json` becomes `.html` at the same index, with everything around it kept |
| LegacyMintPage.ReplaceFinalJson | src/MugenPOAPMintPage.js:112 | in `p + "metadata/" + name + ".json"` with no `.json` in `p` and no dot in the name, the final `.json` is the one replaced |
| LegacyMintPage.ReplaceMetadataAfterPrefix | src/MugenPOAPMintPage.js:112 | the first `metadata/` after a prefix without one is the one replaced |
| LegacyMintPage.PreviewOfMetadataUri | src/MugenPOAPMintPage.js:112 | a URI `p + "metadata/" + name + ".json"` previews at `p + "preview/" + name + ".html"` |
| LegacyMintPage.Page.constructor | src/MugenPOAPMintPage.js:12-16 | the page starts with no signer, no status, no URI and nothing minted |
| LegacyMintPage.Page.ConnectWallet | src/MugenPOAPMintPage.js:18-27 | a signer arrives only when a provider is injected and grants one; nothing else changes |
| LegacyMintPage.Page.BeginMint | src/MugenPOAPMintPage.js:29-31 | the mint is sent exactly when a signer exists, showing the in-progress message; otherwise nothing changes |
| LegacyMintPage.Page.FinishMint | src/MugenPOAPMintPage.js:32-53 | success stores the URI, sets `hasMinted` and shows the preview of a non-empty URI. "Already claimed" sets `hasMinted` with a warning and starts the re-read of token 0. A window or generic failure sets only its message |
| LegacyMintPage.Page.FinishReread | src/MugenPOAPMintPage.js:45-47 | a returned URI is stored and, once minted, its preview shows; a call that throws changes nothing |

## Left out

- **Rendering.** JSX markup, CSS, `alert` pop-ups, `console` logging, clipboard copy and the QR download link are presentation or I/O. The image-encoding library is a parameter (`rendered`).
- **Reading the QR timestamp.** The mint page reads `t` and never uses it. The model proves what `t` carries but does not model its reading.
- **Percent-decoding.** `URLSearchParams` decodes percent escapes; `UrlQuery.Decode` handles only `+`. URL normalisation by the browser is also not modelled. `QrHandoff.QrUrlArrival` therefore requires an event id of unreserved characters and a base URL without `?` or `#`.
- **`getAddress`.** On the routed page, `getAddress()` in the eligibility and claim handlers is assumed to succeed. If it threw, the handler would stop before changing anything.
- **Legacy refused connection.** A refused connection on the legacy page escapes the handler as an unhandled rejection. The model leaves the state unchanged.
- **Corrupt JSON.** A stats entry that is not valid JSON makes every reader throw. The model holds only parsed records.
- **`provider` state.** The ethers `provider` state variable is written but never read, so it is not modelled.
- **Asynchronous interleaving.** React's batching and stale closures are left out, and so are other tabs writing the same storage between a read and a write, and a reveal timer that outlives the page. The step effect runs right after the state change that triggers it, not after the next render.
- **Changing generator props.** Changing the props re-creates the generator's callbacks and timers; the model takes the props as fixed per mounted `Generator`. The fullscreen render width (400 vs 300) only reaches the renderer and is not modelled.
- **Exported document.** `JSON.stringify` of the record, the `Blob`, and the `formatDateTime` locale text are left out.
- **QrGenerator.Generator.Tick:** the countdown model requires an interval that is a positive multiple of 1000 ms, as all four configurable intervals are. For other intervals the source's countdown takes fractional values, which this model does not capture.
- **Decimal.Render:** covers the whole-number values the program formats. JavaScript's exponent notation at 1e21 and above is not modelled.
- **MintPage.Page.FinishCheck:** the score is a real number. A non-numeric value returned by the scoring call is not modelled.
