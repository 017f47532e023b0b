# Pinterestx image extraction, quality rewrite and dedup — a Dafny model

Pinterestx downloads the images a Pinterest page shows. It has two downloaders:

- **The first downloader** is `pinterest_downloader/src/main.rs`, whose entry point is `download_images`.
  - It tries four approaches in turn to get a list of image URLs:
    1. direct extraction from the page's inline data;
    2. a modern-search fetch;
    3. for search pages whose list is still empty, a request to Pinterest's search resource;
    4. an HTML fetch with four strategies: scripts, a raw pattern scan, container elements and plain `<img>` tags.
  - Each approach moves every URL it finds to its original size (`improve_image_quality`), then sorts the list and removes duplicates.
  - The list is cut to the requested length.
  - Each image is saved as `image_NNN.<ext>` under `<pictures>/Pinterestx/<genre>/<query>`, skipping any image whose FNV content hash was already seen in this run. The hash is recorded before the file is created, so a later copy of an image whose save failed is skipped too.
- **The second downloader** is `src/downloader.rs`, whose entry point is `download_pinterest_images`.
  - It fetches one page and gathers URLs from the page's JSON scripts, or failing that from its `<img>` tags.
  - It rewrites each URL to the requested size (`adjust_quality`) and saves each image under its own file name.

Dafny modules follow the program's structure:

| module | what it models |
|---|---|
| `Strings`, `Format`, `Paths`, `Ordering`, `Collections` | the Rust library operations the core uses: `find`, `contains`, `replace`, `split`, `trim`, `split_whitespace`, `format!("{:03}")`, `Path::file_name` / `extension` / `join`, `sort` + `dedup`, walking a `HashSet` |
| `Net`, `Results` | responses, failures, and the improve/sort/dedup tail shared by every strategy |
| `Quality` | `improve_image_quality` |
| `Adjust` | `adjust_quality` |
| `Scanner` | `find_image_urls_in_text`, the raw pattern loops, `is_pinterest_image_url` |
| `Extraction` | `extract_image_urls` of the first downloader |
| `Direct` | `try_direct_pinterest_extraction` |
| `Search` | `try_fetch_from_modern_search`, `try_fetch_from_pinterest_api` |
| `Dedup` | `download_image_with_deduplication`, the FNV hash, and the first downloader's download loop |
| `Pipeline` | `download_images` |
| `Downloader` | the whole of `src/downloader.rs` |

The loops of the source are methods with loop invariants. Each is proved equal to a specification function, and the properties are proved about those functions as lemmas.

These arrive as parameters (see "Left out"):

- the network, as a `Response` value or a function from request URL to `Response`;
- the HTML and JSON parsers;
- `Url::parse`, as a function from a string to its path;
- the pictures directory and `HOME`;
- the disk, as a map from path to bytes, plus per-download success flags.

## Behaviour worth knowing

- **Quality normalisation is not idempotent.** Applying either rewrite a second time can change the URL again:
  - `Quality.NotIdempotent` shows `improve_image_quality` changes `/736x/736x/` again on a second application.
  - `Adjust.AdjustNotIdempotent` shows the same for `adjust_quality` on `/236x/236x/` with quality `original`.
  - What does hold is `Adjust.AdjustSingleStable`: a URL with exactly one size segment is stable.
- **The modern search replaces the direct result; it is not only a fallback.** When the URL carries `source_module_id`, the modern search's success replaces the direct extraction's list, even a non-empty one (`Pipeline.ModernOverridesDirect`).
- **The HTML fallback runs all four strategies of `extract_image_urls`**, not only the element-based ones.
- **The second downloader does not remove duplicates after adjusting.** Two gathered URLs that differ only in size segment become one URL listed twice (`Downloader.AdjustMerges`, `Downloader.ListingRepeats`). When the URL's last path segment contains a `.`, the file name comes from that segment, so the second download writes to the same file (`Downloader.LaterSaveWins`). Otherwise each copy gets its own sequential `image_NNNN.jpg` name.
- **`create_dir_all` failure in the second downloader.** `DownloadError` derives `From` for both `Io(std::io::Error)` and `DirCreation(tokio::io::Error)`. `tokio::io::Error` is a re-export of `std::io::Error`, so these are two conflicting conversions from one type, and `src/downloader.rs` does not compile as written. The model takes `Io` as the error a failing `create_dir_all` produces.
- **The extension fallback in `generate_filename` is dead code.** The sequential name is only used when the last path segment has no `.`, and then the path has no extension. So every sequential name ends in `.jpg` (`Downloader.SequentialNameIsJpg`).

## Model

| member | source | states |
|---|---|---|
| Strings.FindFrom | pinterest_downloader/src/main.rs:701 | an offset found by `text[start..].find(pattern)` is at or after the start and the pattern occurs there |
| Strings.FindFromFirst | pinterest_downloader/src/main.rs:701 | the offset found is the first occurrence at or after the start; `None` means there is none at or after the start |
| Strings.FindFromAtMost | pinterest_downloader/src/main.rs:701 | any occurrence at or after the start bounds what the search finds, so the search succeeds |
| Strings.Contains | pinterest_downloader/src/main.rs:855 | `contains` holds exactly when the pattern occurs at some offset |
| Strings.FindCharFrom | pinterest_downloader/src/main.rs:704 | a position found by `find` with a character predicate holds one of the characters and lies in the text |
| Strings.FindCharFromFirst | pinterest_downloader/src/main.rs:704 | no earlier character is one of the searched ones, and `None` means none of the remaining characters is one |
| Strings.MissingCharNotContained | src/downloader.rs:249-252 | a text lacking one character of the pattern does not contain the pattern |
| Strings.ReplaceAllAbsent | src/downloader.rs:249 | `replace` of a pattern that does not occur returns the text unchanged |
| Strings.ReplaceAllSkip | src/downloader.rs:249 | a prefix in which no occurrence starts is copied unchanged by `replace` |
| Strings.ReplaceAllHead | src/downloader.rs:249 | an occurrence at the start is replaced and the scan resumes after it, without overlap |
| Strings.ReplaceAllTail | src/downloader.rs:249 | a single trailing occurrence is replaced once |
| Strings.Split | pinterest_downloader/src/main.rs:878 | `split('/')` gives one more piece than there are separators, no piece holds the separator, and joining the pieces gives back the text |
| Strings.SplitJoin | pinterest_downloader/src/main.rs:878 | splitting joined separator-free pieces gives back the pieces (split and join are inverses) |
| Strings.TrimStart | pinterest_downloader/src/main.rs:852 | `trim_start` returns a suffix, everything removed is whitespace, and the result does not start with whitespace |
| Strings.TrimEnd | pinterest_downloader/src/main.rs:852 | `trim_end` returns a prefix, everything removed is whitespace, and the result does not end with whitespace |
| Strings.TrimContained | pinterest_downloader/src/main.rs:852-855 | whatever the trimmed URL contains, the URL contains |
| Strings.TrimKeeps | pinterest_downloader/src/main.rs:852-862 | an occurrence that starts and ends with non-whitespace survives `trim` |
| Strings.TrimStartKeeps | pinterest_downloader/src/main.rs:852 | an occurrence that starts with non-whitespace survives `trim_start`, shifted by the removed prefix |
| Strings.TrimEndKeeps | pinterest_downloader/src/main.rs:852 | an occurrence that ends with non-whitespace survives `trim_end` at the same offset |
| Strings.TrimStartChar | pinterest_downloader/src/main.rs:893 | `trim_start_matches('/')` returns a suffix, removes only slashes, and leaves no leading slash |
| Strings.WordLength | pinterest_downloader/src/main.rs:756 | the first word is the longest whitespace-free prefix: it ends at whitespace or at the end |
| Strings.FirstWord | pinterest_downloader/src/main.rs:756 | `split_whitespace().next()` is `None` exactly when the text is all whitespace |
| Strings.FirstWordShape | pinterest_downloader/src/main.rs:756 | the first word is non-empty, starts the trimmed text, holds no whitespace, and is maximal |
| Format.DigitChar | pinterest_downloader/src/main.rs:546 | a decimal digit character denotes its digit value |
| Format.Digits | pinterest_downloader/src/main.rs:546 | `format!("{}")` of a number is a non-empty digit string with no leading zero unless the number is 0 |
| Format.DigitsRoundTrip | pinterest_downloader/src/main.rs:546 | reading back the decimal form gives the number |
| Format.DigitsLength | pinterest_downloader/src/main.rs:546 | the decimal form fits in `w` characters exactly when `0 < w` and `n < 10^w` |
| Format.ZeroPadSpec | pinterest_downloader/src/main.rs:546 | `format!("{:0w}")` (`w` = 3 here, 4 in the second downloader) is exactly `w` wide when the number is below `10^w` and its plain width otherwise, consists of digits, and reads back as the number |
| Format.Zeros | src/downloader.rs:147 | the padding is `k` zero digits |
| Paths.NormalPieces | src/downloader.rs:131-133 | the path components kept are the non-empty pieces other than `.`, all taken from the path |
| Paths.FileName | src/downloader.rs:131-133 | `file_name` is a single non-empty component that is neither `.` nor `..` |
| Paths.FileNameLast | src/downloader.rs:131-133 | the file name of `dir/name` is `name` when `name` is a proper component |
| Paths.LastIndexOf | src/downloader.rs:143-145 | the position found holds the character and no later position does; `None` means the character is absent |
| Paths.Extension | src/downloader.rs:143-145 | `extension` is what follows the last `.`, holds no `.`, and is absent exactly when the only dot is leading, there is none, or the name is `..` |
| Paths.PathJoinShape | pinterest_downloader/src/main.rs:515 | `join` with an absolute component gives the component; otherwise the result starts with the base and ends with the component |
| Paths.JoinRelative | pinterest_downloader/src/main.rs:515 | joining a relative component onto a base not ending in `/` inserts exactly one `/` |
| Ordering.LessIrreflexive | pinterest_downloader/src/main.rs:810 | string order is irreflexive |
| Ordering.LessTransitive | pinterest_downloader/src/main.rs:810 | string order is transitive |
| Ordering.LessTotal | pinterest_downloader/src/main.rs:810 | any two distinct strings are ordered one way |
| Ordering.LessAsymmetric | pinterest_downloader/src/main.rs:810 | no two strings are each less than the other |
| Ordering.ConsSorted | pinterest_downloader/src/main.rs:810-811 | a string below every element of a strictly sorted list extends it strictly sorted |
| Ordering.InsertSorted | pinterest_downloader/src/main.rs:810-811 | inserting keeps the list strictly increasing and adds exactly the new element |
| Ordering.SortedDistinct | pinterest_downloader/src/main.rs:810-811 | `sort` followed by `dedup` is strictly increasing with the same elements |
| Ordering.SortedUnique | pinterest_downloader/src/main.rs:810-811 | two strictly increasing lists with the same elements are equal |
| Ordering.SortedList | pinterest_downloader/src/main.rs:810-811 | every set has a strictly increasing listing of exactly its elements |
| Collections.ElemsEmpty | pinterest_downloader/src/main.rs:796 | a list is empty exactly when its element set is |
| Collections.UnionOverStep | pinterest_downloader/src/main.rs:746-769 | the union over one more element adds that element's contribution |
| Collections.UnionOverMember | pinterest_downloader/src/main.rs:746-769 | a value is in the union exactly when some element contributes it |
| Collections.DistinctCard | src/downloader.rs:200 | a repetition-free list has as many elements as its set |
| Collections.Enumerate | pinterest_downloader/src/main.rs:792-794 | `into_iter` of a `HashSet` hands out every element exactly once, in some order |
| Results.FetchText | pinterest_downloader/src/main.rs:639-652 | `fetch_page` succeeds exactly on a delivered 2xx response, with its body; a non-2xx status is reported with its code; a failed send or body is a request error |
| Results.ImproveAll | pinterest_downloader/src/main.rs:792-794 | the mapped list has one improved URL per listed URL, in the same order |
| Results.SortDedup | pinterest_downloader/src/main.rs:810-811 | `sort` + `dedup` gives a strictly increasing list of the same elements |
| Results.Finish | pinterest_downloader/src/main.rs:792-813 | a strategy's result is the improved set of what it gathered, strictly increasing |
| Results.FinishDetermined | pinterest_downloader/src/main.rs:792-813 | the result does not depend on the order the `HashSet` hands out its URLs |
| Results.FinishEmpty | pinterest_downloader/src/main.rs:796 | the result list is empty exactly when nothing was gathered |
| Quality.PrefixedConcat | pinterest_downloader/src/main.rs:881-891 | the `/`-prefixed rebuilding of the pieces distributes over concatenation |
| Quality.PrefixedJoin | pinterest_downloader/src/main.rs:878-891 | pushing `/` before each piece gives `/` plus the pieces rejoined, so the loop rebuilds the URL with a leading slash |
| Quality.SpliceParts | pinterest_downloader/src/main.rs:881-892 | the loop inserts exactly when there are at least five pieces; it then replaces the fourth piece by `/originals/` and keeps the others, and otherwise rebuilds the URL |
| Quality.ImproveImageQuality | pinterest_downloader/src/main.rs:866-900 | the method returns the improved URL defined by the replacements and the splice |
| Quality.UpgradedUnchanged | pinterest_downloader/src/main.rs:868-871 | a URL with no small size segment passes the three replacements unchanged |
| Quality.SpliceGate | pinterest_downloader/src/main.rs:874-879 | the splice applies exactly when the URL names neither `/originals/` nor `/736x/`, mentions `pinimg.com` and has at least four slashes (three slashes pass the `>= 4` pieces test but leave the loop nothing to insert, so the URL is kept) |
| Quality.ImprovedUnchanged | pinterest_downloader/src/main.rs:866-900 | a URL with no size segment that already names `/originals/`, is foreign or has fewer than four slashes is returned unchanged |
| Quality.FourSlashesSplit | pinterest_downloader/src/main.rs:876-879 | four slashes give at least five pieces |
| Quality.SplicedShape | pinterest_downloader/src/main.rs:878-893 | on `p0/p1/p2/p3/rest` the splice drops `p3` and puts `/originals/` in its place, so the result is `p0/p1/p2/originals//rest`, with a doubled slash; everything else is kept |
| Quality.ImprovedSplices | pinterest_downloader/src/main.rs:866-900 | a `pinimg.com` URL with no size segment and at least four slashes becomes `p0/p1/p2/originals//rest`: its fourth piece is lost |
| Quality.DoubledKeepsSmall | pinterest_downloader/src/main.rs:868-870 | on `/736x/736x/` the first two replacements do nothing |
| Quality.UpgradedDoubled | pinterest_downloader/src/main.rs:868-871 | on `/736x/736x/` the replacements rewrite only the first segment, because occurrences do not overlap |
| Quality.AfterOriginalsKeepsSmall | pinterest_downloader/src/main.rs:868-870 | on `/originals/736x/` the first two replacements do nothing |
| Quality.UpgradedAfterOriginals | pinterest_downloader/src/main.rs:868-871 | on `/originals/736x/` the second `/736x/` now occurs and is rewritten |
| Quality.NoSpliceAfterOriginals | pinterest_downloader/src/main.rs:874 | once `/originals/` is present the splice is skipped |
| Quality.ImprovedDoubled | pinterest_downloader/src/main.rs:866-900 | improving `/736x/736x/` gives `/originals/736x/` |
| Quality.ImprovedAfterOriginals | pinterest_downloader/src/main.rs:866-900 | improving `/originals/736x/` gives `/originals/originals/` |
| Quality.NotIdempotent | pinterest_downloader/src/main.rs:866-900 | improving twice differs from improving once on `/736x/736x/` |
| Adjust.QualitySegment | src/downloader.rs:240-246 | every quality name selects one of the four known size segments; `original` selects `/originals/`, and any name other than the five known ones falls back to `/736x/` |
| Adjust.QualitySegmentNames | src/downloader.rs:240-246 | each segment's own name (`originals` for `/originals/`) selects that segment |
| Adjust.AdjustUnchanged | src/downloader.rs:249-252 | a URL with none of the four segments is returned unchanged |
| Adjust.ReplaceStep | src/downloader.rs:249-252 | for a URL whose only segment sits in the middle, one replacement rewrites that segment exactly when it is the pattern and changes nothing else |
| Adjust.AdjustSingle | src/downloader.rs:237-253 | a URL with exactly one size segment, in one place, gets the selected segment there and nothing else changes |
| Adjust.AdjustSingleStable | src/downloader.rs:237-253 | adjusting such a URL twice gives the same as adjusting once |
| Adjust.AdjustDoubledOnce | src/downloader.rs:237-253 | adjusting `/236x/236x/` to `original` rewrites only the first segment |
| Adjust.AdjustDoubledTwice | src/downloader.rs:237-253 | adjusting `/originals/236x/` to `original` rewrites the second segment |
| Adjust.AdjustNotIdempotent | src/downloader.rs:237-253 | adjusting twice differs from adjusting once on `/236x/236x/` with quality `original` |
| Scanner.AcceptsImageHost | pinterest_downloader/src/main.rs:851-863 | any URL naming `i.pinimg.com` passes the filter |
| Scanner.RejectsForeignHost | pinterest_downloader/src/main.rs:851-863 | a URL naming neither `pinimg.com` nor `pin.it` fails the filter |
| Scanner.AcceptsRawPrefixHit | pinterest_downloader/src/main.rs:851-863 | any URL starting with one of the raw patterns passes the filter |
| Scanner.CaptureHit | pinterest_downloader/src/main.rs:835-840 | a hit adds the text up to the next delimiter, when there is one and it passes the filter |
| Scanner.ScanPattern | pinterest_downloader/src/main.rs:831-846 | the loop over one pattern's occurrences computes the pattern scan, including the stop at the end of the text |
| Scanner.ScanPatterns | pinterest_downloader/src/main.rs:830-847 | the loop over the patterns computes the scan of all of them in order |
| Scanner.FindImageUrlsInText | pinterest_downloader/src/main.rs:819-848 | `find_image_urls_in_text` adds the scan of its six patterns to the set |
| Scanner.ScanFromGrows | pinterest_downloader/src/main.rs:831-846 | scanning only adds to the set |
| Scanner.ScanFromSound | pinterest_downloader/src/main.rs:831-846 | whatever a pattern scan adds starts at an occurrence of the pattern, ends before a delimiter, and passes the filter |
| Scanner.FirstHitKept | pinterest_downloader/src/main.rs:831-846 | what the first occurrence captures is in the result |
| Scanner.ScanFromComplete | pinterest_downloader/src/main.rs:831-846 | an occurrence that no earlier hit skips over, followed by a delimiter and passing the filter, is found |
| Scanner.ScanAllGrows | pinterest_downloader/src/main.rs:830-847 | scanning all patterns only adds to the set |
| Scanner.ScanAllSound | pinterest_downloader/src/main.rs:830-847 | whatever the scan adds was found at an occurrence of one of the patterns |
| Scanner.NoDelimiterNoUrls | pinterest_downloader/src/main.rs:835 | a text without delimiters yields nothing: a URL running to the end of the text is dropped |
| Scanner.FoundStartsWithPrefix | pinterest_downloader/src/main.rs:832-836 | a found URL starts with its pattern |
| Scanner.ScanAllShape | pinterest_downloader/src/main.rs:819-848 | every added URL passes the filter, contains no delimiter, and starts with one of the patterns |
| Scanner.ImageScanShape | pinterest_downloader/src/main.rs:819-848 | every URL `find_image_urls_in_text` adds is a Pinterest image URL, delimiter-free, starting with one of its six patterns |
| Extraction.ScanScripts | pinterest_downloader/src/main.rs:664-686 | the script loop scans, from its first `{`, each script that mentions an image key (or, on search pages, a search key) |
| Extraction.ScanSrcset | pinterest_downloader/src/main.rs:754-761 | a `srcset` contributes the first word of each comma-separated candidate that passes the filter |
| Extraction.ScanElement | pinterest_downloader/src/main.rs:750-766 | an element contributes what each of its four source attributes contributes |
| Extraction.ScanImages | pinterest_downloader/src/main.rs:746-769 | the elements contribute the union of what each contributes |
| Extraction.ExtractImageUrls | pinterest_downloader/src/main.rs:656-816 | `extract_image_urls` returns the improved candidates of the four gated strategies, strictly increasing |
| Extraction.ScriptStepAccepted | pinterest_downloader/src/main.rs:664-686 | everything a script adds passes the filter |
| Extraction.ScriptStageAccepted | pinterest_downloader/src/main.rs:664-686 | everything the script stage gathers passes the filter |
| Extraction.AttributeAccepted | pinterest_downloader/src/main.rs:750-766 | everything an attribute contributes passes the filter |
| Extraction.ImagesAccepted | pinterest_downloader/src/main.rs:746-788 | everything a list of elements contributes passes the filter |
| Extraction.CandidatesAccepted | pinterest_downloader/src/main.rs:656-789 | every candidate of the four strategies is a Pinterest image URL |
| Extraction.ScriptsSuffice | pinterest_downloader/src/main.rs:689 | off search pages, scripts that yield something end the extraction |
| Extraction.SearchPageRunsAll | pinterest_downloader/src/main.rs:689-720 | on search pages the raw scan and the containers always add to the scripts' finds |
| Extraction.BasicOnlyWhenEmpty | pinterest_downloader/src/main.rs:773-789 | a candidate found by no earlier strategy comes from the basic `img` scan |
| Direct.BraceEndFrom | pinterest_downloader/src/main.rs:1117-1129 | the brace matching ends after the opening brace and within the page |
| Direct.BraceEnd | pinterest_downloader/src/main.rs:1113-1129 | the end of the `initial_state` object lies after the opening brace and within the page |
| Direct.FindBraceEnd | pinterest_downloader/src/main.rs:1113-1129 | the counting loop computes the end of the object |
| Direct.DepthStep | pinterest_downloader/src/main.rs:1118-1126 | one character changes the brace depth by its own contribution |
| Direct.BraceEndFromBalanced | pinterest_downloader/src/main.rs:1117-1129 | from any point inside the object, the region ends where the braces first balance, or just after the brace when they never do |
| Direct.BraceRegion | pinterest_downloader/src/main.rs:1109-1138 | the region is the smallest balanced one starting at the brace, or just the brace when the braces never balance |
| Direct.ScanInitialState | pinterest_downloader/src/main.rs:1109-1138 | method 1 scans the brace region after the first `"initial_state"` |
| Direct.SkipBlanks | pinterest_downloader/src/main.rs:1164-1167 | skipping stops at the first character that is neither a space nor a newline, or at the end |
| Direct.UrlKeyNear | pinterest_downloader/src/main.rs:1151 | a `"url"` found near the key lies wholly inside the 100-byte window after it |
| Direct.ColonNear | pinterest_downloader/src/main.rs:1155 | a `:` found lies within 50 bytes after the `"url"` key |
| Direct.QuotedValue | pinterest_downloader/src/main.rs:1170-1182 | a quoted value holds no quote |
| Direct.KeyHit | pinterest_downloader/src/main.rs:1148-1184 | the value an `"original"` key yields, with windows clamped to the page, holds no quote |
| Direct.ReadKeyHit | pinterest_downloader/src/main.rs:1148-1184 | the window searches and the blank-skipping loop compute the key's value |
| Direct.ScanOriginalKeys | pinterest_downloader/src/main.rs:1143-1186 | the loop over `"original"` keys computes the key scan |
| Direct.KeyScanSound | pinterest_downloader/src/main.rs:1143-1186 | whatever the key scan adds is accepted and free of quotes |
| Direct.HitAgrees | pinterest_downloader/src/main.rs:1148-1184 | where the program's own key reading does not panic, it yields what the clamped reading yields |
| Direct.KeyScanStep | pinterest_downloader/src/main.rs:1146-1148 | the scan resumes just after each `"original"` key, having kept what the key yields |
| Direct.AsWrittenStep | pinterest_downloader/src/main.rs:1146-1148 | a key that does not panic advances the program's own scan as it advances the clamped one |
| Direct.PanicStep | pinterest_downloader/src/main.rs:1151 | a key that panics ends the program's own scan in a panic |
| Direct.KeyScanAgrees | pinterest_downloader/src/main.rs:1143-1186 | whenever the program's own scan finishes, it finds exactly what the clamped scan finds |
| Direct.TrailingKeyPanics | pinterest_downloader/src/main.rs:1151 | a page ending in `"original"` makes the program's scan panic |
| Direct.BlankTailPanics | pinterest_downloader/src/main.rs:1164-1167 | blanks running from the `:` to the page end make the program's reading panic, where the clamped reading yields nothing |
| Direct.TryDirectExtraction | pinterest_downloader/src/main.rs:1046-1232 | a failed fetch is passed on; otherwise the result is the improved candidates of the three methods, strictly increasing and non-empty, and "no images" is an error exactly when there are no candidates |
| Direct.InitialStateAccepted | pinterest_downloader/src/main.rs:1109-1138 | method 1 contributes only Pinterest image URLs |
| Direct.DirectCandidatesAccepted | pinterest_downloader/src/main.rs:1143-1215 | every candidate is a Pinterest image URL or names `pinimg.com` |
| Search.QueryParam | pinterest_downloader/src/main.rs:580-588 | `find_map` over the query pairs is absent exactly when no pair has the key, and otherwise is the value of the first pair that has it |
| Search.ScanScripts | pinterest_downloader/src/main.rs:1022-1029 | the loop scans each script mentioning `sourceUrl`, `images` or `image_url` |
| Search.TryModernSearch | pinterest_downloader/src/main.rs:938-1042 | a missing module id or query is an error before any request; success means the page was delivered, and the list is the strictly increasing improved set of the raw and script finds |
| Search.TryPinterestApi | pinterest_downloader/src/main.rs:578-636 | a missing query is an error before any request; success means the resource's answer was delivered, and the list is the improved scan of it |
| Search.ScriptScanAccepted | pinterest_downloader/src/main.rs:1022-1029 | everything the script scan adds is a delimiter-free Pinterest image URL starting with a known pattern |
| Search.ModernCandidatesAccepted | pinterest_downloader/src/main.rs:987-1029 | every candidate of the modern search is a delimiter-free Pinterest image URL |
| Search.ApiNeedsQuery | pinterest_downloader/src/main.rs:580-588 | without a `q` parameter the answer to any request is irrelevant |
| Pipeline.OrDefault | pinterest_downloader/src/main.rs:423-424 | a given genre or query is used, and otherwise the default |
| Pipeline.Truncate | pinterest_downloader/src/main.rs:508-511 | the list is cut to a prefix of the limit's length when the limit is positive, and kept whole when it is 0 |
| Pipeline.BaseDir | pinterest_downloader/src/main.rs:514-524 | the directory is missing only when both the pictures directory and `HOME` are |
| Pipeline.BaseDirLayout | pinterest_downloader/src/main.rs:514-524 | the directory is `<pictures or $HOME/Pictures>/Pinterestx/<genre>/<query>` |
| Pipeline.ChooseImageUrls | pinterest_downloader/src/main.rs:450-498 | the four approaches in turn give the list the fallback chain defines |
| Pipeline.SaveImages | pinterest_downloader/src/main.rs:513-570 | saving fails without a directory or when it cannot be created; otherwise it reports the number of images the loop saved, at most the list's length |
| Pipeline.DownloadImages | pinterest_downloader/src/main.rs:418-575 | an invalid URL or failed final fetch is an error before any write; an empty list saves nothing; otherwise the truncated list is saved and the count reported |
| Pipeline.ChosenSorted | pinterest_downloader/src/main.rs:450-498 | the chosen list is strictly increasing, so it holds no duplicate, whichever approach produced it |
| Pipeline.ModernOverridesDirect | pinterest_downloader/src/main.rs:466-477 | a successful modern search makes the direct page irrelevant |
| Pipeline.ApiOnlyWhenEmpty | pinterest_downloader/src/main.rs:480 | the search resource matters only on a search page whose list is still empty |
| Pipeline.PageOnlyWhenEmpty | pinterest_downloader/src/main.rs:494-498 | the HTML page matters only when the list is still empty |
| Pipeline.NoApiOffSearch | pinterest_downloader/src/main.rs:480 | off search pages the search resource never matters |
| Pipeline.DirectListAccepted | pinterest_downloader/src/main.rs:455-463 | every URL of the direct list is the improved form of an accepted URL |
| Pipeline.ModernListAccepted | pinterest_downloader/src/main.rs:466-477 | every URL after the modern search is the improved form of an accepted URL |
| Pipeline.ApiListAccepted | pinterest_downloader/src/main.rs:480-491 | every URL after the search resource is the improved form of an accepted URL |
| Pipeline.ChosenAccepted | pinterest_downloader/src/main.rs:450-498 | every chosen URL is the improved form of an accepted URL |
| Dedup.FnvFromConcat | pinterest_downloader/src/main.rs:920-921 | hashing in pieces equals hashing the concatenation |
| Dedup.FnvVectors | pinterest_downloader/src/main.rs:920-922 | the hash gives FNV-1a 64's published values for the empty input and for `a` |
| Dedup.HashBytes | pinterest_downloader/src/main.rs:920-922 | the byte loop computes the FNV-1a 64 hash of the content |
| Dedup.DedupStep | pinterest_downloader/src/main.rs:904-935 | an undelivered image is an error that changes nothing; a known hash is skipped without writing; a new hash is recorded before the file is created; `true` exactly when a new image is fully written |
| Dedup.DownloadWithDedup | pinterest_downloader/src/main.rs:904-935 | the method computes the step: its result, the new hash set and the new files |
| Dedup.SecondCopySkipped | pinterest_downloader/src/main.rs:925-927 | a second image with the same bytes yields `false` and changes nothing |
| Dedup.SaveNameShape | pinterest_downloader/src/main.rs:542-546 | the name is `image_`, the zero-padded index, a `.`, and an extension without `.` or `/` |
| Dedup.SaveNamesDistinct | pinterest_downloader/src/main.rs:546 | different indices give different names, whatever the extensions |
| Dedup.SavePathsDistinct | pinterest_downloader/src/main.rs:546-547 | different indices give different destinations in the directory |
| Dedup.DestinationPairDistinct | pinterest_downloader/src/main.rs:539-547 | two URLs at different positions never share a destination |
| Dedup.DestinationsDistinct | pinterest_downloader/src/main.rs:538-547 | no two positions of the list share a destination |
| Dedup.RunAfter | pinterest_downloader/src/main.rs:538-570 | after `n` URLs the count is at most `n` and at most the number of hashes recorded |
| Dedup.RunStep | pinterest_downloader/src/main.rs:550-559 | a skipped URL changes nothing; otherwise the step's hashes and files are taken and the count rises by one exactly on `Ok(true)` |
| Dedup.DownloadOne | pinterest_downloader/src/main.rs:539-565 | the loop body computes one step |
| Dedup.DownloadAll | pinterest_downloader/src/main.rs:538-570 | the loop computes the run over the list, and its count is at most the list's length |
| Dedup.RunStepKeeps | pinterest_downloader/src/main.rs:538-570 | a step to another destination keeps every existing file |
| Dedup.SavedImageKept | pinterest_downloader/src/main.rs:538-570 | an image saved at step `i` keeps its bytes while no later step writes to its destination |
| Dedup.SavedImagesKept | pinterest_downloader/src/main.rs:538-570 | every image the run saves is on disk with its bytes at the end of the run |
| Downloader.FetchPage | src/downloader.rs:151-160 | succeeds exactly on a delivered 2xx response, with its body; reports other statuses as HTTP errors and a failed send or body as a request error |
| Downloader.OutputDir | src/downloader.rs:124-127 | the directory is missing exactly when there is no pictures directory |
| Downloader.OutputDirLayout | src/downloader.rs:124-127 | the directory is `<pictures>/Pinterestx/<genre>/<query>` |
| Downloader.OutputDirAbsoluteQuery | src/downloader.rs:126 | an absolute query replaces the whole directory |
| Downloader.SequentialNameIsJpg | src/downloader.rs:129-148 | the file name is the URL's last segment when that holds a `.`, and otherwise `image_NNNN.jpg` |
| Downloader.GeneratedNameIsComponent | src/downloader.rs:129-148 | every generated name is one non-empty path component |
| Downloader.SequentialNameIndex | src/downloader.rs:147 | below 10000 the index reads back from the four padded digits |
| Downloader.JsonUrlsAreCandidates | src/downloader.rs:210-235 | the recursion collects exactly the string values of the tree that pass the filter |
| Downloader.FindUrlsInJson | src/downloader.rs:210-235 | the recursive walk adds the tree's URLs to the set |
| Downloader.FindUrlsInItems | src/downloader.rs:223-227 | the array loop adds every item's URLs |
| Downloader.FindUrlsInMembers | src/downloader.rs:228-232 | the object loop adds every value's URLs |
| Downloader.GatherUrls | src/downloader.rs:169-197 | the set is the JSON scripts' URLs, or the `img` URLs when those are none |
| Downloader.ImgFallback | src/downloader.rs:184-197 | the `img` loop keeps each `pinimg.com` source with a `.jpg`, `.png` or `.webp` ending |
| Downloader.ExtractImageUrls | src/downloader.rs:162-207 | the list adjusts each gathered URL once, has the set's size, and its elements are the adjusted set |
| Downloader.ListingElems | src/downloader.rs:200 | the mapped list's elements are the adjusted set |
| Downloader.AdjustMerges | src/downloader.rs:200 | two different URLs differing only in their size segment adjust to the same URL |
| Downloader.ListingRepeats | src/downloader.rs:200 | then the list names that URL twice |
| Downloader.DownloadImage | src/downloader.rs:256-267 | success exactly when the image is delivered and written; the file is created after the status check, so a failed body or write leaves an empty file; other paths are untouched |
| Downloader.RunJob | src/downloader.rs:87-117 | the loop body counts a successful save and applies the job to the files |
| Downloader.DownloadAll | src/downloader.rs:87-117 | the loop computes the number of successful saves and the final files |
| Downloader.SavedCountBound | src/downloader.rs:84-117 | the count is at most the number of URLs, and equals it exactly when every URL parses and its download succeeds |
| Downloader.SavedImageKept | src/downloader.rs:87-117 | a saved image keeps its bytes while no later job writes to its destination |
| Downloader.LaterSaveWins | src/downloader.rs:90-91 | a later successful save to the same name replaces an earlier one |
| Downloader.DownloadPinterestImages | src/downloader.rs:51-122 | a failed fetch is passed on; no URLs means success with nothing written; no pictures directory or a failed `create_dir_all` is an error before any write; otherwise the walked list lists each gathered URL's adjusted form exactly once, in some order, so a URL that several gathered URLs adjust to appears that many times; it is downloaded and the successes counted; `tried` is empty whenever the run ends before the download loop |

## Left out

- **Text.** Text is a sequence of characters, and byte offsets are taken to be character offsets. This is exact for ASCII pages. What is not modelled:
  - the panics of slicing inside a multi-byte character;
  - the `len_utf8` steps of the blank-skipping loop.
- **The network.** Each request's answer is an input: a `Response` value, or a function from the request URL to one. Not modelled:
  - client builders and user agents;
  - request headers;
  - cookies and cookie consent;
  - the 250 ms pauses between downloads.
- **Parsing.** The HTML parser and CSS selectors are inputs: `Document` and `Page` give the elements each selector matches. The JSON parser is also an input (`Page.scripts` holds the parsed tree or `None`). `Url::parse` is an input: a parse function for page URLs (`Env.parse`), and for image URLs a function from the string to its path.
- **Output and the file system.**
  - `println!` output is not modelled, including the HTML sample printed on empty results and the "potential Pinterest-related image" messages. So `download_images` returns the count it prints rather than `()`.
  - `dirs::picture_dir()` and `HOME` are inputs.
  - `create_dir_all` is a success flag.
  - `File::create` and `write_all` are per-download success flags. A partial write is modelled as an empty file.
- **The hash.** `FnvHasher` is the `fnv` crate's FNV-1a with 64-bit state, written out as that algorithm. The crate itself is not part of this model.
- **Everything else.** The command-line interface, the web front end, `args.quality` (read only to be printed by the first downloader) and the rest of both programs are outside this model.
- Direct.TryDirectExtraction: a page on which `try_direct_pinterest_extraction` panics is not modelled as a panic. Examples are a page whose `"original"` key lies within 100 bytes of its end, or whose blanks after a `:` run to its end (pinterest_downloader/src/main.rs lines 1151, 1155 and 1166). The program aborts the whole run there. The model reads those keys with windows clamped to the page end and goes on (see "Findings"). The as-written reading, with its panics, is Direct.KeyScanAsWritten. Direct.KeyScanAgrees proves that wherever that reading finishes, it agrees with the clamped one that the pipeline uses.
- Pipeline.ChooseImageUrls: inherits the clamped direct reading. Where the program would abort during its first approach, it returns a list.
- Pipeline.DownloadImages: inherits the clamped direct reading. Where the program would abort before any download, it returns a count.
- Dedup.DedupStep: a hash is recorded before the file is created, so a later failure to create or write the file leaves the hash recorded. The model keeps that order. The file a failed write leaves is the empty file described above.

## Findings

| source | as written | input that shows it | evidently intended | confidence | as-written member | corrected member |
|---|---|---|---|---|---|---|
| pinterest_downloader/src/main.rs:1151 | `html_content[pos..pos+100]` and `[url_pos..url_pos+50]` slice past the end of the page when an `"original"` key lies within 100 bytes of the end, which panics | a page whose text ends in `"original"` (`Direct.TrailingKeyPanics`) | windows clamped to the end of the page, so a trailing key yields nothing | not executed | Direct.KeyScanAsWritten | Direct.KeyScan |
| pinterest_downloader/src/main.rs:1164-1166 | the blank-skipping loop advances its index and then reads the character at the new index, which panics when the blanks after the `:` run to the end of the page | `"original""url":` followed by 100 spaces (`Direct.BlankTailPanics`) | stop at the end of the page and yield no value | not executed | Direct.KeyHitAsWritten | Direct.KeyHit |

The corrected scan is what the direct extraction in this model uses. `Direct.KeyScanAgrees` proves that wherever the program's own scan finishes, it agrees with the corrected one.
