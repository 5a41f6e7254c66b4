# ACE (Autocontent Engine) core, modelled in Dafny

This project models the pure core of the ACE content-generation service and
proves properties of the model. The core has these parts.

- **The TOON codec.** TOON is the service's indentation-based, YAML-like text
  format for request and response bodies. It has two generations.
  - The newer one is `lib/toon/parse.ts` and `lib/toon/io.ts`. It contains the
    line tokenizer `toLines`, the scalar coercion `parseScalar`, the array-header
    recogniser, the stack parser `parseTOON`, the sniffing heuristic
    `looksLikeTOON`, the encoder `toonFromObject`, and the decode decision of
    `readToonOrJson`.
  - The older one is `lib/toon/encode.ts`. It contains `toPrimitive`, a second
    stack parser `parseToon`, the bullet-writing serialiser `stringifyToon`,
    and the header predicates `wantsToon` and `isToonContent`.
- **The fixed-window rate limiter** in `lib/rate-limit/rate-limit.ts`.
  - A process-wide store maps bucket keys to `{count, resetAt}`.
  - `isRateLimited` resets, refuses or counts a call.
  - `guardOr429` turns a refusal into a 429 payload.
- **The rate-limit key** `rateKey` in `lib/rate-limit/key.ts`.
- **The API-key format** in `lib/auth/crypto.ts`.
- **The brief normaliser** `normalizeBrief` in `lib/security.ts`.
- **The network-free snippet stub** `searchWikiSnippets` in `lib/retrieval/wiki.ts`.
- **The pure helpers of two image routes.** These are `app/api/carousel/route.ts`
  and `app/api/image/cover/route.ts`. The helpers cover XML escaping, font
  steps, word wrapping, colour sets, slide padding and request-option clamping.

Layout: one Dafny module per file.

- Shared layers:
  - `Wrappers` is an `Option` type.
  - `JsText` holds the JavaScript string operations the sources use: `trim`,
    `split`, `join`, `\s` runs, `toLowerCase` over ASCII, and decimal digits.
  - `JsNumber` holds JavaScript numbers: finite reals, NaN and the infinities. It
    also holds `Math.max`/`Math.min` and the end index of `slice`.
  - `JsonValue` is the JSON tree. Objects are ordered field lists, and assigning
    an existing key replaces it in place.
- TOON modules:
  - `ToonParse` models `parse.ts`.
  - `ToonParseProps`, `ToonTokens` and `ToonRoundTrip` hold its proofs.
  - `ToonIo` models `io.ts`.
  - `ToonEncode` models `encode.ts`.
  - `ToonEncodeRoundTrip` holds the proofs about `encode.ts`.
- `RateLimit`, `RateKey`, `ApiKey`, `Security` and `Wiki` each model one
  source file.
- `SvgText` holds what both image routes share. `Carousel` and `Cover` hold the
  rest of each route.

The imperative parts stay imperative. These are the two TOON parser loops, the
encoder loops, the word-wrap loop, `ensureCount` and the rate-limit store. Each
loop is a `method` with loop invariants, proved equal to a recursive
specification function, and the properties are proved about that function.
The store is a class owning a `map`.

## Model

| member | source | states |
|---|---|---|
| ToonParse.TokenizeLines | lib/toon/parse.ts:6-16 | at most one token per physical line |
| ToonParseProps.MakeLineShape | lib/toon/parse.ts:11-13 | a token's indent is floor(leading whitespace / 2); its text is the line minus trailing whitespace |
| ToonParseProps.TokensNonBlank | lib/toon/parse.ts:15 | every kept token has non-whitespace text |
| ToonParseProps.TokenizeKeepsNonBlank | lib/toon/parse.ts:10-15 | one token per non-blank line, and non-blank line `i` becomes the token at position `NonBlankBefore(rs, i)` (so the kept lines stay in order, blank ones vanish); all-blank input gives no tokens |
| ToonParseProps.TabIsNotAnIndent | lib/toon/parse.ts:11-12 | a tab counts as one whitespace character, so one tab does not reach level 1 while two spaces do |
| ToonParseProps.CrlfAsLf | lib/toon/parse.ts:8 | lines joined by CRLF parse exactly like the same lines joined by LF |
| ToonParse.NumLiteral | lib/toon/parse.ts:23 | an accepted literal starts with a digit or `-` and denotes a canonical decimal |
| ToonParse.ParseScalarSpec | lib/toon/parse.ts:18-25 | `null`, `true`/`false` and `^-?\d+(\.\d+)?$` are coerced, in that order; anything else is the trimmed text |
| ToonParse.HeaderMatch | lib/toon/parse.ts:34-39 | a header match has a non-empty `[A-Za-z0-9_]` key followed by `[` |
| ToonParse.MatchKeyValueSpec | lib/toon/parse.ts:80-83 | a `key: value` match splits at the first colon, which is not at position 0; a miss means there is no such colon, or the value spans lines |
| ToonParse.PopTo | lib/toon/parse.ts:51 | popping keeps indents, leaves the root, and stops below the line's indent |
| ToonParse.PopToKeepsStack | lib/toon/parse.ts:45-51 | popping keeps the root (indent -1) at the bottom and indents strictly increasing |
| ToonParse.StepKeepsStack | lib/toon/parse.ts:45-91 | every loop iteration keeps the same stack invariant |
| ToonParse.Step | lib/toon/parse.ts:47-91 | every iteration strictly advances `i` and never empties the stack; so the parse terminates and never throws |
| ToonParse.ScanEnd | lib/toon/parse.ts:60 | the array block ends at the first line not indented deeper than the header |
| ToonParse.PopFrames | lib/toon/parse.ts:51 | the pop loop equals `PopTo` |
| ToonParse.CollectRows | lib/toon/parse.ts:59-64 | the row loop stops at `ScanEnd` and collects `Rows` |
| ToonParse.StoreArray | lib/toon/parse.ts:56-66 | the header branch equals `HeaderStep` |
| ToonParse.OpenSection | lib/toon/parse.ts:70-76 | the section branch equals `SectionStep` |
| ToonParse.StoreValue | lib/toon/parse.ts:80-87 | the key-value branch equals `ValueStep` |
| ToonParse.ParseLine | lib/toon/parse.ts:49-90 | one loop body equals `Step` |
| ToonParse.ParseTOON | lib/toon/parse.ts:42-94 | the imperative parser returns `Parse(input)` |
| ToonParseProps.HeaderLine | lib/toon/parse.ts:56-66 | a header stores under its key the rows of every following deeper line, and resumes at the first line that is not deeper |
| ToonParseProps.RowsOfTokens | lib/toon/parse.ts:61-62 | the rows are the trimmed raw texts of all block lines, in order, never coerced |
| ToonParseProps.HeaderIgnoresCountCols | lib/toon/parse.ts:56-66 | the declared count and column list have no effect; only the key matters |
| ToonParseProps.SectionLine | lib/toon/parse.ts:70-76 | `key:` with no space stores a fresh empty object under the key, replacing any earlier value, and pushes its entry |
| ToonParseProps.ValueLine | lib/toon/parse.ts:80-86 | a `key: value` line stores `parseScalar(value)` under the trimmed key, and nothing else changes |
| ToonParseProps.SkippedLine | lib/toon/parse.ts:89-90 | any other line only pops, which leaves the returned root unchanged |
| ToonParseProps.ClosePopTo | lib/toon/parse.ts:93 | popping entries does not change the root returned at the end |
| ToonParse.LooksLikeTOON | lib/toon/parse.ts:97-103 | empty text is not TOON; a `[digits]{` mark always is |
| ToonParseProps.OneLineWithColon | lib/toon/parse.ts:100-102 | any one-line text containing a colon looks like TOON |
| ToonParseProps.NoColonNoMark | lib/toon/parse.ts:100-102 | text with no colon and no `[digits]{` mark never looks like TOON |
| ToonIo.ToonFromObject | lib/toon/io.ts:27-46 | the loop with its recursive call returns `Encode(obj, level)` |
| ToonIo.ItemLines | lib/toon/io.ts:39 | one line per array element |
| ToonIo.HeaderCountIsLength | lib/toon/io.ts:38 | an array is announced as `key[len]{text}:`, with `len` its actual length, and the header parses back to that key and count |
| ToonIo.HeaderTextParses | lib/toon/io.ts:38 | the written header, at any indentation, parses to key, length and the column `text` |
| ToonIo.ReadToonOrJson | lib/toon/io.ts:5-21 | the TOON path is taken iff the content type names `text/toon`/`text/plain` or the body looks like TOON; an empty or unparsable non-TOON body gives `{}`; it never throws |
| ToonIo.OneLineJsonIsToon | lib/toon/io.ts:12-13 | a one-line JSON body with a colon, declared `application/json`, goes to `parseTOON` |
| ToonTokens.EncodeLines | lib/toon/io.ts:27-46 | `toLines` of an encoding gives exactly one token per written line: scalars and headers at their level, items one level deeper |
| ToonTokens.EncodeNoCr | lib/toon/io.ts:45 | an encoding holds no carriage return |
| ToonTokens.ScalarEntryLines | lib/toon/io.ts:31-36 | a scalar entry is the one line `pad + k + ": " + String(v)` |
| ToonTokens.ObjEntryLines | lib/toon/io.ts:40-43 | a nested object is `k:` followed by its own encoding at level + 1 |
| ToonTokens.OneLine | lib/toon/io.ts:28 | a line at level L is exactly 2L spaces plus its text, and tokenizes to indent L |
| ToonRoundTrip.ScalarRoundTrip | lib/toon/io.ts:31-36 | `parseScalar(String(v)) == v` for the scalars the encoder writes unambiguously |
| ToonRoundTrip.NumRoundTrip | lib/toon/io.ts:34 | an integer is written so that it reads back as the same number |
| ToonRoundTrip.StrRoundTrip | lib/toon/parse.ts:18-25 | a trimmed single-line text that no rule coerces reads back as the same string |
| ToonRoundTrip.KeywordRoundTrip | lib/toon/io.ts:31-36 | `null`, `true` and `false` are written so that they read back unchanged |
| ToonRoundTrip.RowsOfItems | lib/toon/io.ts:39 | the item lines under a header read back as the array's texts |
| ToonRoundTrip.HeaderStepAt | lib/toon/io.ts:38-39 | a header and its item lines store the array in one step |
| ToonRoundTrip.PopSection | lib/toon/parse.ts:51-76 | closing a section stores its object under its key in the entry below |
| ToonRoundTrip.BlockRun | lib/toon/parse.ts:47-91 | the tokens of a block of fields append exactly those fields to the object on top |
| ToonRoundTrip.RoundTrip | lib/toon/io.ts:27-46 | `parseTOON(toonFromObject(obj)) == obj` for word keys that are not integers, trimmed single-line uncoercible texts, integers and string arrays |
| ToonEncode.ToPrimitiveSpec | lib/toon/encode.ts:15-24 | empty gives `""`, then `null`, `true`/`false`, a finite decimal number, else the trimmed text |
| ToonEncode.DecimalLiteral | lib/toon/encode.ts:21-22 | an accepted literal denotes a canonical decimal |
| ToonEncode.NumLiteralIsDecimal | lib/toon/encode.ts:21-22 | every literal `parseScalar` accepts, `toPrimitive` reads as the same number |
| ToonEncode.CoercionsAgree | lib/toon/encode.ts:15-24 | the two coercions agree except on numbers only `Number` accepts |
| ToonEncode.CoercionsDiffer | lib/toon/encode.ts:21-22 | `+5` is a number to `toPrimitive` and text to `parseScalar` |
| ToonEncode.ExpandTabs | lib/toon/encode.ts:37 | no tab is left |
| ToonEncode.TabAsTwoSpaces | lib/toon/encode.ts:37 | a tab anywhere in a line acts exactly as two spaces |
| ToonEncode.TabsAsSpaces | lib/toon/encode.ts:30-37 | replacing every tab by two spaces does not change the parse |
| ToonEncode.CrlfAsLf | lib/toon/encode.ts:30 | CRLF-separated lines parse exactly as LF-separated ones |
| ToonEncode.NoColonIgnored | lib/toon/encode.ts:45-49 | a line with no `:` leaves the stack unchanged |
| ToonEncode.LineExpanded | lib/toon/encode.ts:37 | a line is processed as if its tabs were expanded first |
| ToonEncode.FeedKeepsStack | lib/toon/encode.ts:36-72 | the stack invariant holds after any number of lines |
| ToonEncode.KeySuffixes | lib/toon/encode.ts:54 | `k[a]{b}` names the key `k`, so `tags[2]{text}` names `tags` |
| ToonEncode.PlainKey | lib/toon/encode.ts:54 | a key without `[` or `{` is only trimmed |
| ToonEncode.StoreKeepsStack | lib/toon/encode.ts:57-68 | storing or pushing an entry keeps the root at the bottom and indents increasing |
| ToonEncode.LineStepKeepsStack | lib/toon/encode.ts:36-72 | every line keeps the root (indent -1) on the stack, so the parent lookup always finds an object |
| ToonEncode.StoreKey | lib/toon/encode.ts:66-70 | `parent[key] = v` equals `SetTop` |
| ToonEncode.ReadLine | lib/toon/encode.ts:37-54 | the line cleaning, indent and first-colon split equal `LineEntry` |
| ToonEncode.SplitAtColon | lib/toon/encode.ts:44-54 | the split at the first `:` into normalised key and trimmed value equals `ContentEntry`, `None` when there is no colon |
| ToonEncode.ParseLineStep | lib/toon/encode.ts:37-71 | one pass of the loop body keeps the stack well formed and computes `LineStep` |
| ToonEncode.FeedLines | lib/toon/encode.ts:36-72 | the `for` loop over the lines ends with a well-formed stack equal to `Feed(EmptyStack, lines)` |
| ToonEncode.ParseToon | lib/toon/encode.ts:29-75 | the imperative parser returns `Decode(input)` |
| ToonEncode.Bullets | lib/toon/encode.ts:92-97 | a top-level array gives one entry per element |
| ToonEncode.PushItems | lib/toon/encode.ts:110-119 | the item loop appends `ItemBullets` to the lines |
| ToonEncode.PushEntry | lib/toon/encode.ts:103-123 | one pass of the object loop appends exactly `EntryLines(k, v, indent)` |
| ToonEncode.StringifyToon | lib/toon/encode.ts:78-126 | the imperative serialiser returns `Stringify(value, indent)` |
| ToonEncode.NullItemQuirk | lib/toon/encode.ts:92-113 | a `null` item of a top-level array goes on its own line, while inside an object it is `- null` |
| ToonEncode.ScalarLines | lib/toon/encode.ts:101-107 | an object of scalars is one `k: String(v)` line per field, in order, at the given indent |
| ToonEncode.ToonContentIsWanted | lib/toon/encode.ts:129-138 | a TOON content type also satisfies `wantsToon` |
| ToonEncode.ToonContentWith | lib/toon/encode.ts:135-138 | `text/toon` in any case is TOON content exactly when the next character does not continue the word |
| ToonEncode.ToonContentNotFirst | lib/toon/encode.ts:137 | a header that does not start with `t`/`T` is not TOON content |
| ToonEncodeRoundTrip.ScalarLine | lib/toon/encode.ts:40-54 | the written line `k: t` at level L reads as the entry (L, k, t) |
| ToonEncodeRoundTrip.SectionLine | lib/toon/encode.ts:63-67 | the written line `k:` reads as an entry that opens an object |
| ToonEncodeRoundTrip.ValueText | lib/toon/encode.ts:15-24 | `toPrimitive(String(v)) == v` for a writable scalar |
| ToonEncodeRoundTrip.WordKey | lib/toon/encode.ts:54 | every key the other codec round-trips is also a key this parser reads back |
| ToonEncodeRoundTrip.ColonFreeStep | lib/toon/parse.ts:51-90 | in `parseTOON` a line without `:` matches no handler: it only pops the stack and advances, which keeps the returned root |
| ToonEncodeRoundTrip.RunColonFree | lib/toon/parse.ts:47-93 | in `parseTOON`, lines without `:` add nothing: the parse returns the root built so far |
| ToonEncodeRoundTrip.FieldsFeed | lib/toon/encode.ts:36-72 | the lines of a field list add exactly those fields, in order, to the object on top |
| ToonEncodeRoundTrip.TextLines | lib/toon/encode.ts:101-125 | the serialised object splits back into its physical lines |
| ToonEncodeRoundTrip.StringifyRoundTrip | lib/toon/encode.ts:29-126 | `parseToon(stringifyToon(obj)) == obj` for scalars and nested objects with keys free of `:`, `[`, `{` and outer spaces, trimmed uncoercible texts and integers |
| ToonEncodeRoundTrip.DecodeBullets | lib/toon/encode.ts:108-119 | `parseToon` reads `k:` with bullet items back as an empty object under `k`: the array is lost |
| ToonEncodeRoundTrip.ParseBullets | lib/toon/encode.ts:108-119 | `parseTOON` also reads `k:` with bullet items as an empty object under `k` |
| JsonValue.Assign | lib/toon/parse.ts:65-84 | `obj[k] = v` keeps the key order and appends only a new key |
| JsonValue.Get | lib/toon/parse.ts:65-84 | a key reads a value exactly when it is present |
| JsonValue.AssignGet | lib/toon/parse.ts:65-84 | after `obj[k] = v`, `k` reads `v` and every other key reads as before |
| JsonValue.AssignUnique | lib/toon/parse.ts:65-84 | assignment keeps keys unique |
| RateLimit.ReadApiTokenSpec | lib/rate-limit/rate-limit.ts:31-38 | a `Bearer ` prefix, in any case, gives the trimmed remainder; otherwise a truthy `x-api-key`; else nothing |
| RateLimit.LowerUuid | lib/rate-limit/rate-limit.ts:44-45 | lower-casing keeps the UUID shape |
| RateLimit.UserKeyKinds | lib/rate-limit/rate-limit.ts:41-50 | the user key is a lower-cased UUID, `tok:` plus a token, or `anon:` plus the client id, in that precedence, and the three kinds never collide |
| RateLimit.BlankBearerIsAnonymous | lib/rate-limit/rate-limit.ts:31-50 | a blank `Bearer ` value gives the anonymous key even when `x-api-key` is set |
| RateLimit.BucketKey | lib/rate-limit/rate-limit.ts:53-56 | the key starts with the endpoint (and `:bucket` when given) and ends with `:` plus the user key |
| RateLimit.DistinctUsersDistinctBuckets | lib/rate-limit/rate-limit.ts:53-56 | different users never share a bucket |
| RateLimit.LimitsOf | lib/rate-limit/rate-limit.ts:60-69 | the endpoint is non-empty, and the window and the maximum are at least 1 |
| RateLimit.LimitsPrecedence | lib/rate-limit/rate-limit.ts:60-69 | `''` becomes `default`; the window defaults to 60; `maxHits` beats `limit`, which beats 60 |
| RateLimit.ResetAllows | lib/rate-limit/rate-limit.ts:75-86 | a missing or expired bucket restarts at `now + winMs` and the call is allowed with count 1 |
| RateLimit.RefusedKeeps | lib/rate-limit/rate-limit.ts:81-83 | a refused call leaves the bucket unchanged |
| RateLimit.AllowedCounts | lib/rate-limit/rate-limit.ts:81-86 | an allowed call was below the maximum and adds one |
| RateLimit.CountBound | lib/rate-limit/rate-limit.ts:81-86 | with a whole maximum, the count never exceeds the maximum |
| RateLimit.Record | lib/rate-limit/rate-limit.ts:71-86 | only the computed key is created or changed; every other bucket is untouched |
| RateLimit.RecordRefusedKeeps | lib/rate-limit/rate-limit.ts:81-83 | a refused call leaves the whole store unchanged |
| RateLimit.RecordKeepsBound | lib/rate-limit/rate-limit.ts:81-86 | the bound on all counts is an invariant of the store |
| RateLimit.Replay | lib/rate-limit/rate-limit.ts:75-86 | replaying calls against one bucket gives one verdict per call |
| RateLimit.WindowFrom | lib/rate-limit/rate-limit.ts:75-86 | inside one window, call i is refused iff count + i reaches the maximum |
| RateLimit.FirstCallsAllowed | lib/rate-limit/rate-limit.ts:75-86 | in a fresh window exactly the first `maxHits` calls are allowed and every later one is refused |
| RateLimit.Store.IsRateLimited | lib/rate-limit/rate-limit.ts:59-87 | the verdict and the new store are those of `Record` on the old store |
| RateLimit.Store.GuardOr429 | lib/rate-limit/rate-limit.ts:95-121 | a 429 payload with the normalised window and maximum iff the call was limited, otherwise none |
| RateKey.UserId | lib/rate-limit/key.ts:10 | `req.user.id ?? x-user-id`: the user object wins whenever it has an id |
| RateKey.RateKeyOf | lib/rate-limit/key.ts:9-16 | the key begins with `u:` or `ip:`, and with `u:` iff the user id is truthy |
| RateKey.UserWins | lib/rate-limit/key.ts:10-15 | a non-empty `req.user.id` gives `u:<id>` |
| RateKey.HeaderUser | lib/rate-limit/key.ts:10-15 | without a user object, a non-empty `x-user-id` gives `u:<id>` |
| RateKey.EmptyUserIdHidesHeader | lib/rate-limit/key.ts:10-15 | an empty `req.user.id` shadows the header and gives an `ip:` key |
| RateKey.ForwardedFirst | lib/rate-limit/key.ts:12-13 | only the first comma-separated, trimmed `x-forwarded-for` entry is used |
| RateKey.ForwardedSingle | lib/rate-limit/key.ts:12-13 | a single forwarded address is used trimmed |
| RateKey.Unknown | lib/rate-limit/key.ts:13 | no forwarded header and no `req.ip` gives `ip:0.0.0.0` |
| ApiKey.ValidFormatParts | lib/auth/crypto.ts:13-15 | a key is valid iff it is `ace_` (any case), a non-empty alphanumeric part, `_` and exactly 32 hex digits |
| ApiKey.ValidFormatSplits | lib/auth/crypto.ts:14 | every valid key splits into those three parts |
| ApiKey.CaseInsensitive | lib/auth/crypto.ts:14 | `ACE_` and upper-case letters are accepted |
| ApiKey.UnderscoreInMiddle | lib/auth/crypto.ts:14 | an `_` inside the middle part is rejected |
| ApiKey.WrongTailLength | lib/auth/crypto.ts:14 | a last part of any length other than 32 is rejected |
| ApiKey.Hex | lib/auth/crypto.ts:8 | two hex digits per byte |
| ApiKey.Base36 | lib/auth/crypto.ts:9 | a non-empty run of base-36 digits |
| ApiKey.GeneratedKeysValid | lib/auth/crypto.ts:7-15 | every generated key passes the format check |
| Security.NormalizeBrief | lib/security.ts:8-10 | at most 500 characters, a prefix of the lower-cased collapsed text, and all of it when it is shorter |
| Security.CollapseSingleSpaced | lib/security.ts:9 | after collapsing, whitespace occurs only as single spaces |
| Security.CollapseNoUpper | lib/security.ts:9 | collapsing whitespace introduces no upper-case letter |
| Security.NormalizedShape | lib/security.ts:9 | the brief is single-spaced and has no upper-case letter |
| Security.CollapseFixed | lib/security.ts:9 | collapsing a single-spaced text changes nothing |
| Security.NormalizeIdempotent | lib/security.ts:8-10 | normalising twice gives the same result as once |
| Wiki.Base | lib/retrieval/wiki.ts:12-18 | five snippets, each starting with `query:` and ending with `(lang)` |
| Wiki.SearchWikiSnippets | lib/retrieval/wiki.ts:7-21 | at most five snippets, a prefix of the fixed list, each starting with `query:` and ending with `(lang)` |
| Wiki.SnippetCount | lib/retrieval/wiki.ts:20 | any limit but NaN gives between 1 and 5 snippets: 1 below 2, 5 from 5, the truncated limit in between |
| Wiki.DefaultCount | lib/retrieval/wiki.ts:10-20 | the default limit gives four snippets |
| Wiki.NaNLimitIsEmpty | lib/retrieval/wiki.ts:20 | a NaN limit survives the clamping and gives no snippet |
| JsNumber.Max | app/api/carousel/route.ts:154-156 | `Math.max` is NaN exactly when either side is NaN |
| JsNumber.SliceEnd | app/api/carousel/route.ts:145 | the end index of `slice(0, n)` never exceeds the length and is the truncated `n` when that fits |
| SvgText.EscapeIsPerChar | app/api/carousel/route.ts:31-38 | because `&` goes first, the chain of five replacements escapes every character on its own |
| SvgText.EscapeChar | app/api/carousel/route.ts:31-38 | a single character escapes to its entity: `&amp;`, `&lt;`, `&gt;`, `&quot;`, `&apos;`, or itself |
| SvgText.EscapeSafe | app/api/carousel/route.ts:31-38 | escaped text contains no `<`, `>`, `"` or `'` |
| SvgText.EscapePlain | app/api/carousel/route.ts:31-38 | text with no special character is unchanged |
| SvgText.EscapeRoundTrip | app/api/image/cover/route.ts:34-41 | decoding the five entities gives the original text back |
| SvgText.ChunkSizes | app/api/carousel/route.ts:51-64 | every line but the last has exactly `max` words, every line has 1 to `max`, and ceil(words / max) lines |
| SvgText.ChunksJoin | app/api/carousel/route.ts:51-64 | joining the lines with spaces gives the words joined with spaces |
| SvgText.ChunksFlatten | app/api/carousel/route.ts:51-64 | the lines' words, in order, are exactly the input words |
| SvgText.WrapWordList | app/api/carousel/route.ts:54-63 | the wrap loop gives `Chunks` joined per line, and for max 0 an empty first line and then one word per line |
| SvgText.SplitWsWords | app/api/carousel/route.ts:52 | splitting trimmed text at `\s+` gives no empty word, unless the text is empty (then the only word is `""`) |
| SvgText.LeadingSpaceEmptyWord | app/api/image/cover/route.ts:71 | text that starts with whitespace splits into an empty first word |
| SvgText.Dimension | app/api/carousel/route.ts:157-158 | at least 320 and the fallback for a non-finite value |
| Carousel.PickFontSize | app/api/carousel/route.ts:41-48 | one of 40, 48, 56, 64, 72; 72 up to 32 characters, 40 beyond 110 |
| Carousel.FontSizeMonotone | app/api/carousel/route.ts:41-48 | a longer trimmed text never gets a larger font |
| Carousel.WordsPerLineTable | app/api/carousel/route.ts:87 | 72→6, 64→7, 56→8, 48→9, 40→10, that is 15 - fs/8 words |
| Carousel.WrapWords | app/api/carousel/route.ts:51-64 | the lines of the trimmed text: `max` words each but the last, joining back to the words, ceil(words / max) of them |
| Carousel.TitleLines | app/api/carousel/route.ts:86-88 | at least one title line; no empty word unless the text is blank |
| Carousel.PalettePeriod | app/api/carousel/route.ts:67-74 | the colour sets repeat with period 3 and neighbours differ |
| Carousel.PadStart | app/api/carousel/route.ts:146 | `padStart` gives the target width and ends with the original digits |
| Carousel.SlideLabelDigits | app/api/carousel/route.ts:146 | a number below ten is written with a leading zero |
| Carousel.PadLabels | app/api/carousel/route.ts:146 | the `while` loop keeps the prefix, labels each added entry with its 1-based position, and stops at the first length `>= n` |
| Carousel.EnsureCount | app/api/carousel/route.ts:144-148 | keeps `items.slice(0, n)`, pads with `Slide NN` numbered by position, and has exactly `n` entries for a whole `n >= 0` |
| Carousel.SettingsOf | app/api/carousel/route.ts:154-164 | count in [1, 10], sizes at least 320, `horde` iff exactly `'horde'`, a non-empty slide list |
| Carousel.SettingsDefaults | app/api/carousel/route.ts:154-164 | count 5 when not finite, clamped otherwise; sizes 1080 and 1350 by default; `Hook 1..3` for missing or empty slides |
| Carousel.Slides | app/api/carousel/route.ts:154-165 | between 1 and 10 slides, the given ones first, then labels |
| Cover.PickTextFirst | app/api/image/cover/route.ts:43-49 | the headline is the first available of: trimmed non-blank text, `hooks[0]`, `captions[0]`, `slides[0]`, the default |
| Cover.Candidates | app/api/image/cover/route.ts:43-49 | the candidates always end with the default headline, so one is always found |
| Cover.TextWins | app/api/image/cover/route.ts:44 | non-blank text wins over every list and arrives trimmed |
| Cover.BlankTextIgnored | app/api/image/cover/route.ts:44 | blank text counts as no text |
| Cover.DefaultWhenNothing | app/api/image/cover/route.ts:48 | with nothing usable the headline is `Your headline goes here` |
| Cover.ThemeColors | app/api/image/cover/route.ts:51-68 | the two themes differ in every colour; the dark one equals the first carousel set |
| Cover.SettingsOf | app/api/image/cover/route.ts:162-166 | `light` iff exactly `'light'`, `png` iff exactly `'png'`, sizes at least 320, defaulting to 1080x1350, kept when at least 320 |
| Cover.WrapText | app/api/image/cover/route.ts:70-83 | the untrimmed text in lines of at most `max` words that join back to the split words |
| Cover.Headline | app/api/image/cover/route.ts:101 | the picked text cut into lines of 22 words, at least one, joining back to its words; leading whitespace makes an empty first word, a trimmed `text` does not |

## Left out

- I/O and plumbing are not modelled. This covers Next.js requests and responses, `req.json()`/`req.text()`, SVG markup assembly, JSZip, resvg PNG rendering, Supabase, the AI back ends and `sanitizeUserInput`. The image routes are modelled only up to the values they compute.
- `JSON.parse` is the parameter `jsonParse` of `ToonIo.ReadToonOrJson`; the JSON grammar is not re-modelled.
- Numbers in the TOON codec are exact decimals. Float rounding is not modelled, and neither is the exponent form of `String(n)` or `Number` literals with exponents or `Infinity`. `ToonEncode.DecimalLiteral` accepts only `[+-]?(\d+\.?\d*|\.\d+)`.
- Object key order follows insertion. JavaScript lists integer-like keys first, so the round-trip conditions (`ToonTokens.KeyOk`, `ToonEncodeRoundTrip.EncKey`) exclude all-digit keys. Assigning the key `__proto__` is not modelled either.
- ToonEncode.ParseToon: the `!parent || typeof parent !== 'object'` guard (lib/toon/encode.ts:61) cannot fire, because the root is never popped and only objects are pushed. `ToonEncode.LineStepKeepsStack` proves this, and the model has no branch for it.
- Strings are sequences of Unicode characters. `slice(0, 500)` and `.length` therefore count characters rather than UTF-16 code units.
- `toLowerCase` is modelled over ASCII letters only. This is exact for the `bearer ` prefix, the UUID and API-key checks, and the content-type tests, but only approximate for `normalizeBrief` on non-ASCII text.
- Request headers are a map keyed by lower-case header name, as `Headers.get` sees them. A repeated header is not modelled.
- `clientUUID` (a SHA-1 of IP and user agent) is the `clientId` field of the request. `Date.now()` is the `now` parameter. `randomBytes(16)` is the `random` parameter of `ApiKey.GenerateKey`. SHA-256 key hashing is not modelled.
- RateLimit.Store.IsRateLimited: the in-place update `b.count += 1` of a bucket object is modelled as storing a new bucket value under the key. No other reference to a bucket escapes, so this loses no behaviour. Concurrent calls are not modelled.
- SvgText.WrapWordList takes `max` as a natural number. The routes only pass whole numbers (6 to 10 and 22), so a fractional or negative maximum is not modelled.
- Carousel.EnsureCount: the padding label uses the entry's 1-based position in the output (`out.length + 1`), which is what the code does. The exact-length guarantee is stated for whole `n >= 0`, and `Carousel.Slides` shows that the route's clamped count always yields 1 to 10 slides.
- Request bodies are modelled at their declared TypeScript types: `Carousel.Body`, `Cover.Body` and `RateKey.Request.userId` hold strings or lists of strings. The source only casts (`req.json() as Body`, `(req as any)?.user?.id`) and checks nothing, so ill-typed JSON is not modelled. Examples: a string `hooks` in app/api/image/cover/route.ts, whose `.length` and first character are used; a number or `null` slide that `toString`/`split` turns into a string or a thrown error and the routes' 400 answer; a numeric `user.id` of `0`, which is falsy in lib/rate-limit/key.ts and gives an `ip:` key.
- Cover.Headline models the `text` that `buildSVG` receives. The footer's `theme.toUpperCase()` label and the unused `_maxTextWidth` are not modelled.
