# QR image service: a verified model of its decision core

This project models the deterministic core of a small HTTP service that
renders QR-code images, optionally with a logo, and stores them. A request
carries a payload `data`. When the payload is an LPA activation-profile
descriptor (`LPA:<version>$<SM-DP+ address>$<activation code>`), the image
is stored under its activation code and served from storage on later
requests. Every other payload is stored under the time of the request.

The model has seven modules:

- `Common` — optional values, results, and JavaScript truthiness for the few
  value shapes the service inspects.
- `JsStrings` — the string built-ins the service relies on: `trim`,
  `includes`, `split` on one character, `replace` of every occurrence of a
  character, and the decimal form of a number in a template string.
- `Activation` — `isLPAData`, and the three-stage cascade of
  `extractActivationCode`:
  - the regular expression `/LPA:.*?\$.*?\$(.+)/`;
  - then the last `$`-separated field;
  - then `/LPA:(.+)/`;
  - each result trimmed.

  The regular expressions are modelled with their JavaScript meaning: `.`
  does not match a line terminator, lazy groups stop at the first `$`, the
  capture is greedy to the end of its line, and the leftmost match wins.
- `StoragePaths` — `getStoragePath` and `getPublicUrl`. Paths are relative to
  the storage root and use `/`. The clock reading `Date.now()` is a
  parameter.
- `MatrixCache` — `getMatrixCacheKey` and `getQRCodeMatrix`:
  - the abstract cache is a `CacheState` of insertion-ordered keys plus a
    map;
  - the `Cache` class holds the same fields and updates them in place;
  - the capacity is 100, with strict FIFO eviction;
  - the md5 digest is a function held by the cache, and the encoder
    `QRCode.create` is a function parameter.
- `Rasterizer` — the integer layout of `generateQRCodeWithLogo` and
  `drawFinderPattern`:
  - a `Canvas` class keeps an append-only log of draw commands;
  - nested loops paint one square per dark module;
  - three finder patterns are painted over the modules;
  - the logo step is recorded as the plate, the border and, when the file
    loads, the image.
- `Routes` — the `POST /generate` and `GET /generate` handlers, and
  `getBaseUrl`:
  - durable storage is a map from path to bytes, and the temporary
    directory is a set of paths;
  - downloading the logo, rendering the PNG and writing to storage are
    abstract calls that succeed or fail;
  - each handler is a pure specification function (`PostHandler`,
    `GetHandler`) and a method of the `Router` class;
  - each method is proved to produce exactly the response, new state and
    effect trace of its function.

The model follows the code where the code differs from its comments or
from the other handler:

- Stage three of `extractActivationCode` runs whenever stage two does not
  apply, not only when the text has no `$` (the comment at
  services/qrcodeService.js:530 says "If no $ found"). An example is text
  with a `$` whose first piece lacks "LPA".
- `POST /generate` fails when the logo download fails
  (routes/qrcode.js:68-71 has no `try`). It does not fall back to a render
  without a logo, unlike GET, which swallows a failed download
  (routes/qrcode.js:187-197).
- The POST handler keeps its temporary-logo cleanup as written; see
  "## Findings".

Two behaviours of the code are stated as lemmas because they are easy to
miss:

- Storage is addressed by the extracted activation code alone, and a
  stored image is served without rendering. So a later request whose
  payload differs but yields the same code (`LPA:1$B$C` after
  `LPA:1$A$C`), or that asks for other colours or another logo, is
  answered with the image drawn for the first request
  (`Routes.RepeatGetServedFromStore`, `Routes.RepeatPostServedFromStore`).
- `margin` reaches the layout as `parseInt(margin)` unchecked
  (routes/qrcode.js:123, 256), and a negative margin is accepted: the
  render succeeds and modules are drawn at negative coordinates, outside
  the canvas (`Rasterizer.NegativeMarginEscapes`).

## Model

| member | source | states |
|---|---|---|
| JsStrings.TrimStart | services/qrcodeService.js:520 | the result is the longest suffix not starting with whitespace; what it drops is all whitespace |
| JsStrings.TrimEnd | services/qrcodeService.js:520 | the result is the longest prefix not ending with whitespace; what it drops is all whitespace |
| JsStrings.TrimSlices | services/qrcodeService.js:520 | whitespace around a prefix of a suffix is whitespace of the whole string |
| JsStrings.Trim | services/qrcodeService.js:520 | `trim()` is a slice of the input with only whitespace around it, and does not begin or end with whitespace |
| JsStrings.TrimUnchanged | services/qrcodeService.js:527 | text without whitespace at either end is its own trim |
| JsStrings.TrimIdempotent | services/qrcodeService.js:533 | trimming twice equals trimming once |
| JsStrings.Find | services/qrcodeService.js:518 | the result is the first index of the character in the range, or the end of the range when it is absent |
| JsStrings.Contains | services/qrcodeService.js:543 | `s.includes(t)`, also used at lines 513 and 525: `t` occurs in `s` at some index; `Activation.ContainsInPrefix` and `Activation.NoMarkerNoCode` state what the extractor draws from it |
| JsStrings.FindIsFirst | services/qrcodeService.js:518 | `Find` returns exactly the first occurrence |
| JsStrings.Split | services/qrcodeService.js:524 | the `split("$")` pieces hold no separator, there are at least two exactly when the separator occurs, and joining them gives the input back |
| JsStrings.SplitJoin | services/qrcodeService.js:524 | splitting the join of separator-free pieces gives the pieces back |
| JsStrings.ReplaceAll | services/qrcodeService.js:606 | each character equal to the old one is replaced, and every other character is kept, at the same length |
| JsStrings.NatToString | services/qrcodeService.js:562-566 | the decimal form `${n}` has digits only, has no leading zero, and is one character exactly below 10 |
| JsStrings.NatToStringValue | services/qrcodeService.js:562-566 | the digits of `${n}`, read left to right, denote `n`, so the timestamp can be read back from the string |
| JsStrings.NatToStringInjective | services/qrcodeService.js:562-566 | distinct timestamps print differently, since the decimal form can be read back |
| Activation.IsLPAData | services/qrcodeService.js:542-544 | `isLPAData`: a truthy string containing `LPA`; `NoMarkerNoCode` and `ExtractActivationCode` state what follows from it |
| Activation.LineEnd | services/qrcodeService.js:518 | gives the end of the current line: no line terminator before it, and a terminator or the end of the text at it |
| Activation.ThreeFieldAt | services/qrcodeService.js:518 | a capture of the three-field pattern is non-empty and stays on one line |
| Activation.ThreeFieldFrom | services/qrcodeService.js:518-521 | the leftmost three-field capture is non-empty |
| Activation.AfterMarkerFrom | services/qrcodeService.js:531-534 | the `LPA:(.+)` capture is non-empty |
| Activation.LastField | services/qrcodeService.js:524-528 | the split fallback applies only to text that contains `$` |
| Activation.AfterMarker | services/qrcodeService.js:530-536 | stage three, the trimmed `LPA:(.+)` capture; `NoSeparatorFormat` states that it decides the code of `LPA:<code>` without `$` and what it gives |
| Activation.ExtractActivationCode | services/qrcodeService.js:507-537 | a code is found only for LPA data |
| Activation.NoMarkerNoCode | services/qrcodeService.js:508-516 | `isLPAData` is false exactly for non-strings, empty strings and strings without "LPA" (lines 542-544), and then the extractor returns `null` |
| Activation.ContainsInPrefix | services/qrcodeService.js:525 | a marker in the first `$`-piece is a marker of the whole text, so stage two fires only for text that contains "LPA" |
| Activation.ThreeFieldNeedsTwoDollars | services/qrcodeService.js:518 | the three-field pattern cannot match text with at most one `$` |
| Activation.ThreeFieldLine | services/qrcodeService.js:518 | for single-line `x`, `y` and `<code>`, `LPA:` occurs at the start of `LPA:<x>$<y>$<code>` and the line that `.` may span runs to the end of the text |
| Activation.ThreeFieldDollars | services/qrcodeService.js:518 | the lazy groups stop at the first two `$` after the marker, which end `x` and `y` when neither holds a `$` |
| Activation.ThreeFieldAtStart | services/qrcodeService.js:518-519 | on text that starts with `LPA:` on one line, the match at the start wins, and its capture is all that follows the second `$` |
| Activation.ThreeFieldMatch | services/qrcodeService.js:518 | on one line, `LPA:<x>$<y>$<code>` with no `$` in `x` or `y` is matched at the start, and the capture is all of `<code>`, further `$` included |
| Activation.ThreeFieldFormat | services/qrcodeService.js:503-521 | the documented `LPA:1$SMDP$ACTIVATION_CODE` form yields the trimmed third field |
| Activation.TwoFieldFormat | services/qrcodeService.js:503-528 | the documented `LPA:TEST$ACTIVATION_CODE` form yields the trimmed last field |
| Activation.NoSeparatorFormat | services/qrcodeService.js:530-534 | `LPA:<code>` without any `$` yields the trimmed code |
| StoragePaths.GetStoragePath | services/qrcodeService.js:549-568 | `getStoragePath` on the payload and the clock reading; `ContentAddressed`, `TimeAddressed`, `ClockInPath` and `DirectoryMatchesClass` state its properties |
| StoragePaths.ContentAddressed | services/qrcodeService.js:552-559 | LPA data with a non-empty code is stored at `activation_code/<code>.png`, whatever the clock says |
| StoragePaths.TimeAddressed | services/qrcodeService.js:561-566 | without a code, paths embed the timestamp, and distinct timestamps give distinct paths |
| StoragePaths.ClockInPath | services/qrcodeService.js:561-566 | without a code, the path is the directory prefix, the decimal digits of the clock reading, and `.png` |
| StoragePaths.LPADirectory | services/qrcodeService.js:552-562 | LPA data goes under `activation_code/` and never under `general/` |
| StoragePaths.GeneralDirectory | services/qrcodeService.js:563-566 | other data goes under `general/` and never under `activation_code/` |
| StoragePaths.DirectoryMatchesClass | services/qrcodeService.js:549-568 | the directory is `activation_code/` exactly for LPA data and `general/` exactly for the rest |
| StoragePaths.StripTrailingSlash | services/qrcodeService.js:611 | `replace(/\/$/, "")` removes exactly one trailing `/` when there is one, and keeps the rest as a prefix |
| StoragePaths.GetPublicUrl | services/qrcodeService.js:602-623 | `getPublicUrl` with `BASE_URL` as a parameter; `PublicUrlShape` and `BareUrlRoundTrip` state its properties |
| StoragePaths.PublicUrlShape | services/qrcodeService.js:602-623 | the URL is `/storage/` and the path with `\` replaced by `/`, preceded by the explicit base without its trailing `/` when that is truthy, else by `BASE_URL` without its trailing `/` when that is truthy, else by nothing; a truthy explicit base makes `BASE_URL` irrelevant |
| StoragePaths.BareUrlRoundTrip | services/qrcodeService.js:604-606 | the path can be read back from a URL built without a base |
| MatrixCache.KeyText | services/qrcodeService.js:149 | the text `url:level` that is hashed; `KeyTextInjective` states that it determines the request |
| MatrixCache.CacheKey | services/qrcodeService.js:146-151 | `getMatrixCacheKey`: the digest of `KeyText` |
| MatrixCache.KeyTextInjective | services/qrcodeService.js:146-151 | for levels without `:`, distinct (url, level) pairs hash distinct texts |
| MatrixCache.SizeIsLength | services/qrcodeService.js:177 | `matrixCache.size` is the number of keys in insertion order |
| MatrixCache.Fetch | services/qrcodeService.js:156-189 | a hit returns the stored matrix and changes nothing; a miss succeeds exactly when the encoder gives modules, returns those modules and leaves them stored under the key; an encoder result without modules is the "Invalid QR code object" error, a thrown encoder the encoder error, and either leaves the cache unchanged; every lookup keeps the invariant and at most 100 entries |
| MatrixCache.Insert | services/qrcodeService.js:176-182 | the store of a miss, evicting the earliest key first when 100 are held; `InsertKeepsInvariant`, `FullMissEvictsOldest` and `MissAppends` state its effect |
| MatrixCache.InsertKeepsInvariant | services/qrcodeService.js:176-182 | inserting keeps the keys distinct, keeps order and map in agreement, and keeps at most 100 entries |
| MatrixCache.FullMissEvictsOldest | services/qrcodeService.js:176-182 | a miss on a full cache removes exactly the earliest-inserted key, keeps every other entry, and appends the new key last |
| MatrixCache.MissAppends | services/qrcodeService.js:182 | a miss on a cache that is not full only appends |
| MatrixCache.FetchMemoizes | services/qrcodeService.js:159-162 | after a success, the same request returns the same matrix and changes nothing, whatever the encoder would now say |
| MatrixCache.ReadDoesNotProtect | services/qrcodeService.js:159-182 | reading the oldest entry of a full cache does not save it from the next eviction (FIFO, not LRU) |
| MatrixCache.Cache.constructor | services/qrcodeService.js:10-11 | the cache starts empty and valid |
| MatrixCache.Cache.GetQRCodeMatrix | services/qrcodeService.js:156-189 | result and new state are those of `Fetch`; the encoder is consulted exactly on a miss |
| Rasterizer.Canvas.constructor | services/qrcodeService.js:245-246 | a new canvas has the given size and no drawing |
| Rasterizer.Canvas.Paint | services/qrcodeService.js:292 | a drawing call appends one command to the log |
| Rasterizer.Layout | services/qrcodeService.js:228-242 | fails with "empty" for N = 0 and with "too small" when the width less the margins is below N; otherwise the module size is the floor quotient (at least 1) and the side is `N·ms + 2·margin`, within `width` and above `width - N` |
| Rasterizer.DefaultOptions | services/qrcodeService.js:197-205 | the destructuring defaults: colours `#1DB9B9` on `#FFFFFF`, level `H`, margin 4, width 1000, rounded corners; `DefaultsFit` states that they lay out every symbol of up to 992 modules per side |
| Rasterizer.RowDraws | services/qrcodeService.js:286-294 | the squares of one row's dark cells, left to right; `RowDrawsExact` and `RowDrawsCount` state them |
| Rasterizer.GridDraws | services/qrcodeService.js:269-296 | the squares of the module pass, row by row; `GridDrawsExact` and `GridDrawsCount` state them |
| Rasterizer.FinderDraws | services/qrcodeService.js:431-500 | the commands of `drawFinderPattern`; `FinderLayout` states them |
| Rasterizer.LogoDraws | services/qrcodeService.js:338-417 | the order of the logo commands; `LogoOnlyWhenLoaded` states when the image is drawn |
| Rasterizer.Symbol | services/qrcodeService.js:248-336 | background, modules and the three finder patterns; `SymbolIsFills` and `FinderPlacement` state their shape and placement |
| Rasterizer.Commands | services/qrcodeService.js:248-417 | the symbol, then the logo commands |
| Rasterizer.Render | services/qrcodeService.js:194-417 | the image drawn for a matrix, or the layout error; `ModulesInsideCanvas`, `FinderPlacement` and `NegativeMarginEscapes` state its properties |
| Rasterizer.RowDrawsExact | services/qrcodeService.js:286-294 | a row's commands are exactly the squares of its dark cells |
| Rasterizer.RowDrawIsCell | services/qrcodeService.js:286-294 | every command of a row is the square of one of its dark cells, with that cell as witness |
| Rasterizer.GridCellDrawn | services/qrcodeService.js:269-296 | the square of every dark cell is emitted by the module pass |
| Rasterizer.GridDrawIsCell | services/qrcodeService.js:269-296 | every command of the module pass is the square of a dark cell, with that cell as witness |
| Rasterizer.GridDrawsExact | services/qrcodeService.js:269-296 | the module pass emits a square at `(margin + col·ms, margin + row·ms)` for every dark cell, and nothing for light cells |
| Rasterizer.RowDrawsCount | services/qrcodeService.js:286-294 | a row emits as many squares as it has dark cells |
| Rasterizer.GridDrawsCount | services/qrcodeService.js:269-296 | the module pass emits exactly one square per dark cell of the matrix, so with `GridDrawsExact` no cell is painted twice |
| Rasterizer.CellInside | services/qrcodeService.js:277-279 | a module square lies within the `N·ms` grid |
| Rasterizer.ModulesInsideCanvas | services/qrcodeService.js:240-296 | every module square of a successful render lies inside the canvas when the margin is not negative |
| Rasterizer.NegativeMarginEscapes | services/qrcodeService.js:228-279 | a negative margin is not rejected: the render succeeds and a dark top-left module is drawn at a negative x, outside the canvas |
| Rasterizer.DarkRow | services/qrcodeService.js:446-463 | a row of the finder block holds every cell, left to right |
| Rasterizer.DarkGridLength | services/qrcodeService.js:445-464 | the finder block has `size·size` module commands |
| Rasterizer.DarkGridCell | services/qrcodeService.js:445-464 | cell (i, j) of the finder block is command `i·size + j` |
| Rasterizer.FinderLayout | services/qrcodeService.js:441-499 | a finder pattern is the 49 dark modules in row-major order, then a light 5-module square at offset `ms`, then a dark 3-module square at offset `2·ms` |
| Rasterizer.FarCorner | services/qrcodeService.js:317 | the outer offset is `margin + (N-7)·ms`, so the outer patterns end flush with the far edges of the symbol |
| Rasterizer.FinderPlacement | services/qrcodeService.js:298-336 | the rendered image is square, and its finder patterns sit at `(margin, margin)`, `(margin + (N-7)·ms, margin)` and `(margin, margin + (N-7)·ms)` |
| Rasterizer.SymbolIsFills | services/qrcodeService.js:248-336 | background, modules and finders are all filled rectangles |
| Rasterizer.LogoOnlyWhenLoaded | services/qrcodeService.js:346-417 | the logo image is drawn only for a given logo path that loads; the plate is drawn exactly when a path is given |
| Rasterizer.DefaultsFit | services/qrcodeService.js:198-241 | with the defaults (width 1000, margin 4), every symbol of 1 to 992 modules fits; the inner part is exactly N whole modules |
| Rasterizer.DrawModules | services/qrcodeService.js:269-296 | the nested loops append exactly the squares of the dark cells, row by row |
| Rasterizer.DrawFinderPattern | services/qrcodeService.js:431-500 | the loops and the two inner squares append exactly the commands of a finder pattern |
| Rasterizer.DrawSymbol | services/qrcodeService.js:248-336 | a fresh canvas receives the background, the modules and the three finder patterns |
| Rasterizer.RenderMatrix | services/qrcodeService.js:228-417 | the method's result is the image that `Render` specifies, or its layout error |
| Rasterizer.GenerateQRCodeWithLogo | services/qrcodeService.js:194-426 | the matrix comes from the cache exactly as `Fetch` says; a cache failure is passed on, and otherwise that matrix is rendered |
| Routes.GetBaseUrl | routes/qrcode.js:79-93 | `getBaseUrl`; `BaseUrlPriority` states its priority order |
| Routes.BaseUrlPriority | routes/qrcode.js:79-93 | `BASE_URL` wins; otherwise the forwarded protocol, then the request protocol, then `http`, with the forwarded host, then `host`; `null` exactly when no host is known |
| Routes.Catch | routes/qrcode.js:147-153 | the `catch` block: remove an existing temporary logo, then pass the error on; `CatchFacts` states it |
| Routes.Finish | routes/qrcode.js:102-105 | the cleanup before a JSON reply, under each handler's condition, with a throwing unlink leading to `Catch`; `FinishFacts` states it |
| Routes.Generate | routes/qrcode.js:97-146 | the serve-or-render steps both handlers share; `GenerateCached`, `GenerateRendered`, `GenerateStore` and `GenerateTemps` state them |
| Routes.Uploaded | routes/qrcode.js:8-11 | the upload middleware stores the uploaded file in the temporary directory before the handler runs |
| Routes.PostHandler | routes/qrcode.js:45-154 | `POST /generate` as written; `BadRequestExit`, `PostStoreWrites`, `PostRemovesLogo` and the findings' lemmas state it |
| Routes.GetHandler | routes/qrcode.js:167-292 | `GET /generate`; `BadRequestExit`, `GetStoreWrites`, `GetRemovesLogo` and `DownloadFailure` state it |
| Routes.PostLogo | routes/qrcode.js:66-72 | POST's temporary logo: the uploaded file when there is one, else the download of a truthy `logoUrl`, else none; `PostStoreWrites` and `PostRemovesLogo` are stated over it |
| Routes.GetLogo | routes/qrcode.js:187-197 | GET's temporary logo: the download of a truthy `logoUrl`, with a failed download giving none; `GetRemovesLogo` is stated over it |
| Routes.PostHandlerCleaned | routes/qrcode.js:45-154 | `POST /generate` with the cleanup GET performs; `PostCleanedRemovesLogo` and `PostCleanedAgrees` state it |
| Routes.CatchFacts | routes/qrcode.js:147-153 | the error exit passes the error on, leaves storage alone and removes an existing temporary logo |
| Routes.FinishFacts | routes/qrcode.js:102-105 | when its unlink cannot throw, the reply exit answers as prepared and leaves storage alone; it removes the logo unless the policy keeps a logo that was not uploaded |
| Routes.GenerateCached | routes/qrcode.js:97-114 | stored LPA data is served as `cached: true` with its public URL, with nothing rendered and storage unchanged |
| Routes.GenerateRendered | routes/qrcode.js:116-146 | otherwise the payload is rendered; on success the buffer is written at exactly the storage path and served as `cached: false`; a render or write failure changes no storage |
| Routes.GenerateStore | routes/qrcode.js:97-146 | the shared steps combine the cached and the rendered exits |
| Routes.GenerateTemps | routes/qrcode.js:102-151 | the shared steps remove the logo on every exit, except the reply exits of a policy that keeps a logo that was not uploaded |
| Routes.BadRequestExit | routes/qrcode.js:62-64 | a request is answered 400 exactly when `data` is falsy, before any download, render or write (also lines 183-185) |
| Routes.PostStoreWrites | routes/qrcode.js:45-154 | POST serves from storage exactly for stored LPA data with a successful logo step; it writes only the rendered image at the storage path; every reply carries that path's public URL |
| Routes.GetStoreWrites | routes/qrcode.js:167-292 | the same for GET; GET succeeds exactly when the image is stored or the render and the write succeed |
| Routes.SameCodeSamePath | services/qrcodeService.js:552-559 | two payloads with the same non-empty activation code are both LPA data and share one storage path, at any instants |
| Routes.RepeatGetServedFromStore | routes/qrcode.js:230-247 | after a served GET for a payload with a non-empty code, every later GET whose payload yields the same code, whatever else it holds and whatever its styling or logo, is served from storage as cached |
| Routes.RepeatPostServedFromStore | routes/qrcode.js:97-114 | the same for POST, when the later request's logo download, if any, succeeds |
| Routes.NonLPANeverCached | routes/qrcode.js:98 | a payload that is not LPA data is never served from storage |
| Routes.DownloadFailure | routes/qrcode.js:187-197 | GET with a failed download behaves as if no logo URL was given; POST fails with nothing rendered or written (lines 69-72) |
| Routes.GetRemovesLogo | routes/qrcode.js:236-288 | GET removes its downloaded logo on the cached, the success and the error exits |
| Routes.PostRemovesLogo | routes/qrcode.js:102-151 | POST removes an uploaded logo on every exit after validation, and a downloaded logo on the error exits only |
| Routes.PostKeepsDownloadedLogo | routes/qrcode.js:134-136 | as written, a POST with a downloaded logo that is answered with an image leaves the file behind |
| Routes.PostKeepsUploadOnBadRequest | routes/qrcode.js:62-64 | as written, a POST with an uploaded file and no `data` leaves the uploaded file behind |
| Routes.PostCleanedRemovesLogo | routes/qrcode.js:147-151 | the corrected POST leaves the temporary directory as it found it on every exit, 400 included |
| Routes.PostCleanedAgrees | routes/qrcode.js:45-154 | the correction changes neither the response nor the storage |
| Routes.Router.Recover | routes/qrcode.js:147-153 | the `catch` block's response, new state and effects are those of `Catch` |
| Routes.Router.Reply | routes/qrcode.js:133-136 | the cleanup before a reply has the response, new state and effects of `Finish`, including a failed unlink |
| Routes.Router.ServeOrRender | routes/qrcode.js:97-146 | the serve-or-render steps have the response, new state and effects of `Generate` |
| Routes.Router.Post | routes/qrcode.js:45-154 | `POST /generate` has the response, new state and effects of `PostHandler` |
| Routes.Router.Get | routes/qrcode.js:167-292 | `GET /generate` has the response, new state and effects of `GetHandler` |

## Left out

- `downloadLogo` (services/qrcodeService.js:17-124) is an abstract call that gives a temporary path or fails. HTTP, redirects, the 30-second timeout and partially written files are not modelled.
- `saveQRCodeToStorage` and `fileExists` are a write to the storage map that succeeds or fails per path, and a membership test. Creating directories is not modelled.
- The logo step (services/qrcodeService.js:338-417) has floating-point geometry, and `loadImage`, `clip` and `drawImage` are canvas-library calls. Only the order of plate, border and image is recorded, with `loads` saying whether the file decodes.
- `drawRoundedRect` and its radius `0.3·ms` (a float) are one `Rounded` command shape. `canvas.toBuffer` (PNG encoding) is not modelled; the image is its command log.
- Only the square, boolean form of the module matrix is modelled. Detecting `modules.size` versus `modules.data`, `Math.sqrt` and `NaN` are not.
- `parseInt` and `parseFloat` of request fields are not modelled. Width and margin are integers, and the styling fields are passed to the renderer unchanged.
- `path.join` normalisation is not modelled. Paths are relative to the storage root and use `/`, so a code containing `/` or `..` becomes a path with those characters rather than a normalised one. The absolute storage root is not modelled.
- The upload middleware's size limit and file-type filter are not modelled. The upload is an optional temporary path.
- Concurrency is not modelled. Requests run one after another, and two requests in the same millisecond share a timestamp path.
- Logging (`console.*`) is not modelled, and neither are Express's `res` and `next` beyond the three response kinds.
- The documented examples (`"LPA:1$SMDP$ABC123"` gives `"ABC123"`, `"LPA:TEST$CODE"` gives `"CODE"`) are covered as instances of `Activation.ThreeFieldFormat` (with `"1"`, `"SMDP"`, `"ABC123"`) and `Activation.TwoFieldFormat` (with `"LPA:TEST"`, `"CODE"`). They are not separate lemmas on literal strings.
- Routes.Catch: the unlink of an existing logo is taken to succeed. In POST's catch (routes/qrcode.js:149-151) an unlink that threw would skip `next(error)`, and GET's catch (routes/qrcode.js:283-287) swallows such a failure, so neither case is modelled. `Routes.Finish` does model an unlink of a file that has gone missing.
- `logoSize` (services/qrcodeService.js:203, default 0.2) is part of the floating-point logo geometry, so `Rasterizer.DefaultOptions` does not carry it.
- The md5 digest is an arbitrary function. `MatrixCache.KeyTextInjective` is about the hashed text, so a digest collision would share an entry.

## Findings

| source | as written | input that shows it | evidently intended | confidence | as-written member | corrected member |
|---|---|---|---|---|---|---|
| routes/qrcode.js:134-136 | the cached and success exits of POST unlink the logo only when it came from the upload (`logoPath && req.file`), so a logo downloaded from `logoUrl` is never removed on those exits | POST with `data` and `logoUrl`, no file, a download that succeeds and a render and write that succeed | remove the temporary logo whenever it exists, as GET does (lines 236-238, 267-269) | not executed | Routes.PostKeepsDownloadedLogo | Routes.PostCleanedRemovesLogo |
| routes/qrcode.js:62-64 | the 400 exit of POST returns before any cleanup, so the file the upload middleware stored stays in `temp/` | POST with a `logoFile` upload and no `data` | remove the uploaded file on the 400 exit too | not executed | Routes.PostKeepsUploadOnBadRequest | Routes.PostCleanedRemovesLogo |

`Routes.PostHandlerCleaned` is the corrected handler. `Routes.PostCleanedAgrees` proves that the correction changes only the temporary directory.
