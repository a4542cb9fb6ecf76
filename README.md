# wenbun-tts-generator: the `/tts` handler

This project models the core of a small Go HTTP service. The service turns
short Chinese texts into MP3 audio through a text-to-speech provider and
keeps every result in a cache directory. The model covers:

- the input check on `text`: one to five runes, all Han (`Validation`);
- the cache file name built from `model_text`: separators replaced, white
  space trimmed, cut to 50 runes, `.mp3` appended (`Text`, `CacheKey`);
- the cache path: the file name joined onto the output directory with
  `filepath.Join`, modelled on Unix from Clean's documented rules (`Paths`);
- the hit / miss / reset decision and the steps after a provider call
  (`Handler`). `HandleOutcome` states it as one function of the disk
  before the request. The class `TtsService` does the same thing step by
  step over a `files` map, and logs each provider request in
  `synthesisCalls`.

Strings are sequences of Unicode scalar values, so a Go rune count is the
length of the sequence. Three things are inputs to the model rather than
computed by it:

- the provider's answer (`SynthesisReply`);
- Go's base64 decoder (`Config.decodeBase64`);
- the result of writing the file (`WriteResult`).

Go's Han table is the parameter `Config.isHan`. Go's `unicode.IsSpace`
is not a parameter. `Text.IsSpace` writes it out as the Unicode
White_Space list: '\t' to '\r', ' ', U+0085, U+00A0, U+1680,
U+2000..U+200A, U+2028, U+2029, U+202F, U+205F and U+3000.

## Model

The functions that compute are plain definitions without contracts of
their own. Each lemma row covers the functions it names, and cites their
source lines:

- `SanitizeFilenameSafe` covers `SanitizeFilename`, and through it
  `ReplaceSeparators`, `Text.TrimSpace` and `Text.Truncate`.
- `CacheFileNameIsComponent` covers `CacheFileName`.
- `CachePathIsChild` covers `CachePath`.
- The `Paths` rows cover `Paths.Join` and `Paths.Clean`.
- The `Text` trim rows cover the trim functions and `Text.IsSpace`.
- `HandleOutcome` covers `Handler.WantsReset` and `Handler.Get`, the
  one-value `url.Values.Get`.

| member | source | states |
|---|---|---|
| Validation.MatchesOneOrMoreIff | main.go:63 | The pattern `^[\p{Han}]+$` matches exactly the non-empty texts whose runes are all Han. |
| Validation.IsValidText | main.go:58-65 | A text is accepted iff it has 1 to 5 runes and all of them are Han. Over 5 runes is refused whatever its content, and so is the empty text. |
| Text.ReplaceAllAt | main.go:157-158 | `strings.ReplaceAll` with one-rune arguments keeps the length. Each occurrence of the target becomes the replacement and every other rune stays in place. |
| Text.TrimLeftSpaceDrops | main.go:159 | Left trimming leaves a suffix of the input that does not begin with white space. Every rune removed was white space. |
| Text.TrimRightSpaceDrops | main.go:159 | Right trimming leaves a prefix of the input that does not end with white space. Every rune removed was white space. |
| Text.TrimSpaceStrips | main.go:159 | `strings.TrimSpace` leaves a contiguous piece of the input that neither begins nor ends with white space. Only white space lies on either side of it. |
| CacheKey.ReplaceSeparatorsAt | main.go:157-158 | Both replacements together turn every '/' and '\\' into '_' and keep every other rune and the length. |
| CacheKey.SanitizeFilenameSafe | main.go:156-164 | The sanitized name contains no '/' or '\\' and has at most 50 runes. It is the first 50 runes of the trimmed string, or all of it when that is short enough, and does not start with white space. Rune by rune it is the input after a white-space-only prefix, with each separator turned into '_'. |
| CacheKey.CacheFileNameIsComponent | main.go:88 | The file name is the sanitized `model_text` key followed by ".mp3" and has at most 54 runes. It is one plain path component: not empty, not `.` or `..`, and without '/'. |
| CacheKey.CachePathIsChild | main.go:88-89 | The cache path is the file name appended directly to the cleaned output directory. No text or model can name a file outside that directory. |
| Paths.JoinSplit | main.go:89 | Splitting a path at its separators and joining the pieces back gives the path again. This is the basis of the element view of `filepath.Clean`. |
| Paths.SplitAppend | main.go:89 | Appending a separator and a separator-free name to a path adds exactly that name to its pieces. |
| Paths.JoinPlainComponent | main.go:89 | `filepath.Join(dir, name)` for a plain component is the rendering of dir's cleaned elements followed by `name`. |
| Paths.RenderShape | main.go:89 | A cleaned path is "." exactly when it is unrooted with no elements, and "/" exactly when it is rooted with no elements. |
| Paths.JoinIsChild | main.go:89 | For a plain component, `filepath.Join(dir, name)` is `Clean(dir)` with `name` appended after one separator. There is no separator when `Clean(dir)` is "/", and the result is just `name` when it is ".". |
| Handler.ModelName | main.go:81-84 | The voice is the `model` parameter when it is non-empty, and the default Chirp3 voice otherwise. It is never empty. |
| Handler.HandleOutcome | main.go:67-153 | An invalid text is refused with 400, with no provider call and no change on disk, and only invalid text gets 400. An empty text gets the "Missing ?text=" message. A cache hit without `reset=true` serves the stored bytes with no call and no change. A miss or a reset makes exactly one call, with the text and the chosen voice. A call happens only on a miss or reset of valid text and is followed by `StoreReply` at the request's cache path. |
| Handler.StoreReply | main.go:112-152 | After the call, the response is audio or 500. Decodable, non-empty audio that is written is stored at the path and nowhere else, and served. Every failure before the write answers 500 and leaves the disk unchanged. A failed write answers 500 and changes at most the path. |
| Handler.OnlyCachePathChanges | main.go:88-89 | Any request changes the disk at most at its own cache path. A request that makes no provider call changes nothing. |
| Handler.RepeatRequestHits | main.go:91-98 | After a request is answered with audio, asking again for the same text and voice without reset is a cache hit: same bytes, no provider call, disk unchanged. |
| Handler.TtsService.HandleTts | main.go:67-101 | The step-by-step handler leaves `files` and the response as `HandleOutcome` says. It appends to `synthesisCalls` exactly the call `HandleOutcome` makes, if any. |
| Handler.TtsService.Synthesize | main.go:103-152 | The miss branch logs the provider request. It leaves `files` and the response as `StoreReply` says for that request. |

## Left out

- `main`: reading `.env`, the environment defaults (`OUTPUT_DIR`, `PORT`), creating the output directory and starting the server are process setup. The API key and output directory are fields of `Config`.
- The HTTP POST to the provider, reading its body and JSON decoding are I/O. Their result is the input `SynthesisReply`. A provider `error` field with no `audioContent` appears as `Parsed("")`.
- The exact JSON payload text (`%q` quoting, `%.2f` for the speaking rate) and the API URL are not rendered. The request is recorded as its fields (`SynthesisRequest`).
- Base64 decoding is Go library code and is the parameter `Config.decodeBase64`. The Han script table is the parameter `Config.isHan`.
- Texts that are not valid UTF-8 are not modelled: strings here are sequences of scalar values.
- `os.Stat` is modelled as membership in the `files` map. A Stat error other than "not found", and a directory sitting at the cache path, are not modelled.
- `http.ServeFile` is modelled as answering with the stored bytes. Its headers, range requests and content-type sniffing, the Content-Type header, and the newline `http.Error` appends to messages are not modelled. Neither is logging.
- Concurrent requests on the same cache path are not modelled: each request is one atomic step over the disk.
- Paths.Join: only the Unix form of `filepath.Join`/`Clean` is modelled; on Windows '\\' and volume names also count. Clean is modelled from its documented rules, not from Go's code.
- Parsing the raw query string into `url.Values` (percent-decoding, `;` handling) is left out. The query arrives already parsed, as `Query`.
