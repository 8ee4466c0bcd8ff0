# S3 file segregation, modelled in Dafny

This project models the engine of `aws-s3-file-segregation` (`main.py`), which tidies an S3 "directory".
The engine lists the objects under an `s3://bucket/prefix/` location page by page. It works out a date for
each file, either from a regular expression over the file's name or from one default date. It then moves
the file under a directory named by formatting that date, or under an error directory when no date could
be found. A move is an S3 `copy_object` followed by a `delete_object`.

Modules, one per part of the engine:

- `wrappers.dfy` (`Wrappers`): the `Option` and `Result` types.
- `path_codec.dfy` (`PathCodec`): `parse_s3_uri`, which removes every `"s3://"` and splits at the first
  `/`. Also POSIX `os.path.join` and `os.path.basename`.
- `date_time.dfy` (`DateTimes`): Gregorian validity. Also an exact-width digit parser and formatter for
  the `%Y%m%d` and `%Y%m%d%H` formats, as one instance of `strptime`.
- `date_extractor.dfy` (`DateExtractor`): `extract_datetime_from_filename`. The regular-expression search
  and `strptime` are parameters.
- `object_store.dfy` (`ObjectStore`): the S3 client as a class over a map from (bucket, key) to bytes. It
  has `ListObjectsV2`, `CopyObject` and `DeleteObject`, each with an injected failure flag.
- `mover.dfy` (`Mover`): `move_files_to_s3`. It is a method against the client, specified by the pure
  `Move`.
- `paginator.dfy` (`Paginator`): the generator `list_s3_get_files`. It is a class holding the generator's
  loop variables, and each `Next` call runs the body up to the next `yield`.
- `segregation.dfy` (`Segregation`): `start_segregation`. This covers the routing of each file, one move
  per file, and all moves of a page finishing before the next page is pulled.
- `config.dfy` (`Config`): `parse_config_element`, `parse_config`, and the defaults that
  `validate_refine_config` gives `time_delay`, `n_keys` and `n_loops`.

Copy source versus delete target. `move_files_to_s3` passes the raw `source_path` as `CopySource`, which
S3 splits at its first `/`. It deletes the `(bucket, key)` that `parse_s3_uri` returns, and that function
removes every `"s3://"`, including one inside the key. The two locations agree unless the source path
contains `"s3://"` (`PlanMove`, `SchemeInKeyPlan`). The lister produces `bucket/key` for a key that does not
start with `/`, so for such keys this happens only when the key itself contains `"s3://"`. In that case the
move deletes a different object and keeps the original (`MismatchedDeleteKeepsOriginal`). A key that starts
with `/` is different: `os.path.join` drops the bucket, and the path parses to the empty bucket
(`AbsoluteKeyLosesBucket`). The model keeps both behaviours as written.

## Model

| member | source | states |
|---|---|---|
| PathCodec.ParseS3Uri | main.py:216-218 | parsing succeeds exactly when the scheme-stripped path has a `/`; the bucket has no `/` and `bucket + "/" + key` is the stripped path |
| PathCodec.SplitAtSlash | main.py:217 | `split('/', 1)`: fails exactly when there is no `/`; otherwise splits at the first `/` and rejoins to the input |
| PathCodec.IndexOf | main.py:217 | the first index of a character, or none exactly when it is absent |
| PathCodec.RemoveScheme | main.py:217 | `replace('s3://', '')` never lengthens the string |
| PathCodec.RemoveSchemeIdentity | main.py:217 | a path without `"s3://"` is left unchanged by the replace |
| PathCodec.SlashSurvivesRemoval | main.py:216-218 | a path that parses had a `/` before the scheme was removed |
| PathCodec.SchemeInsideKeyIsRemoved | main.py:217 | `"s3://"` inside the key is removed as well: `b/s3://k` parses as bucket `b`, key `k` |
| PathCodec.IndexOfFirst | main.py:217 | the first occurrence of a character is the index found |
| PathCodec.ParseJoinRoundTrip | main.py:216-218 | `parse_s3_uri(os.path.join(bucket, key))` gives back `(bucket, key)` for a non-empty bucket without `/`, a relative key and no `"s3://"` |
| PathCodec.Basename | main.py:267 | the base name has no `/`, is a suffix of the path, and follows a `/` when shorter than the path |
| PathCodec.BasenameAfterSeparator | main.py:267 | the base name of `dir/ + name` is `name` |
| PathCodec.JoinUnderDirectory | main.py:267 | joining a plain name under a directory that ends in `/` appends it |
| PathCodec.JoinRules | main.py:250 | `os.path.join(a, b)` is `b` when `b` is absolute, `a + b` when `a` is empty or ends in `/`, and `a + "/" + b` otherwise |
| PathCodec.JoinPlainName | main.py:267 | a base name is placed directly under the destination directory, with a `/` added only when the directory is non-empty and lacks one |
| PathCodec.AbsoluteKeyLosesBucket | main.py:250 | a listed key starting with `/` becomes the whole path, which parses to the empty bucket |
| PathCodec.JoinKeepsBasename | main.py:267 | the destination key keeps the source key's base name |
| DateTimes.DaysInMonth | main.py:298 | a month has 28 to 31 days, and 29 exactly for February in a leap year |
| DateTimes.DigitValue | main.py:298 | a decimal digit's value is below 10 |
| DateTimes.DigitChar | main.py:298 | the digit character of a value reads back as that value |
| DateTimes.Pow10 | main.py:298 | a power of ten is at least 1 |
| DateTimes.DigitsValue | main.py:298 | `w` digits denote a number below `10^w` |
| DateTimes.Pad | main.py:298 | zero-padding gives exactly `w` digits |
| DateTimes.ValueOfPad | main.py:298 | reading a zero-padded number gives the number back |
| DateTimes.PadOfValue | main.py:298 | padding the value of a digit string gives the string back |
| DateTimes.ParseFixed | main.py:298 | a parsed `%Y%m%d` / `%Y%m%d%H` string has exactly the format's width, only digits, and gives a valid date-time |
| DateTimes.FormatFixed | main.py:298 | formatting gives exactly the format's width, all digits |
| DateTimes.ParseFormatRoundTrip | main.py:298 | parsing a formatted date-time gives it back |
| DateTimes.FieldsOfRendering | main.py:298 | the fields read back from a rendering are the rendered date-time's |
| DateTimes.RenderingSlices | main.py:298 | year, month, day and hour sit at positions 0-4, 4-6, 6-8 and 8-10 of a rendering |
| DateTimes.FormatParseRoundTrip | main.py:298 | formatting a parsed string gives the string back, so the parse is injective |
| DateTimes.RenderFields | main.py:298 | digit fields re-render to the string they were read from |
| DateTimes.FixedWidthStrptime | main.py:298 | the two-format `strptime` yields only valid date-times from all-digit strings of exactly the format's width, and nothing for other formats |
| DateExtractor.ExtractDatetimeFromFilename | main.py:282-310 | an uncompilable pattern raises; no match gives the "no match found" outcome; a match gives a date exactly when `strptime` accepts the concatenated groups, and that date is `strptime`'s; a match `strptime` refuses gives the "fail to convert date" outcome with the concatenated text and the format |
| DateExtractor.JoinGroupsAppend | main.py:295 | the groups' texts are concatenated in order with no separator |
| DateExtractor.ClassifiesRenderedDate | main.py:295-310 | groups that concatenate to a rendered date-time give back that date-time |
| DateExtractor.UnmatchedGroupFailsToConvert | main.py:295-308 | an unmatched optional group contributes `"None"`, so the fixed-width parse fails and the file is unclassified |
| DateExtractor.NoGroupsIsUnclassified | main.py:295-308 | a pattern without groups gives the empty string, which does not parse |
| DateExtractor.SingleGroupExample | tests/test_extract_datetime_from_filename.py:13-22 | `20240901` under `%Y%m%d` gives 2024-09-01 00:00 |
| DateExtractor.MultiGroupExample | tests/test_extract_datetime_from_filename.py:25-34 | `20221231` then `10` under `%Y%m%d%H` give 2022-12-31 10:00 |
| DateExtractor.RendersAsSingleExample | tests/test_extract_datetime_from_filename.py:13-22 | 2024-09-01 renders as `20240901` |
| DateExtractor.RendersAsExample | tests/test_extract_datetime_from_filename.py:25-34 | 2022-12-31 10:00 renders as `2022123110` |
| DateExtractor.NoMatchExample | tests/test_extract_datetime_from_filename.py:37-45 | a name the pattern does not match gives "no match found" |
| DateExtractor.MonthOutOfRangeExample | tests/test_extract_datetime_from_filename.py:48-56 | the groups of `report_2022-30-12.txt` give `20223012`, which fails to convert |
| DateExtractor.YearZeroExample | tests/test_extract_datetime_from_filename.py:59-67 | the groups of `report_0000-00-00.txt` give `00000000`, which fails to convert |
| ObjectStore.AfterCopy | main.py:271-275 | after a copy the destination holds the source's bytes and nothing else changes |
| ObjectStore.AfterDelete | main.py:277 | after a delete the target is gone and nothing else changes |
| ObjectStore.Client.constructor | main.py:374 | a client over the given store |
| ObjectStore.Client.ListObjectsV2 | main.py:231-235 | fails exactly when the call fails; otherwise returns `min(MaxKeys, 1000, n)` distinct keys under the prefix, where `n` is the number of keys there and 1000 is the most one answer carries; the store is unchanged |
| ObjectStore.Client.CopyObject | main.py:271-275 | succeeds exactly when the call does not fail and the source exists and differs from the destination; the store becomes the copy, or is unchanged |
| ObjectStore.Client.DeleteObject | main.py:277 | succeeds exactly when the call does not fail; the store becomes the deletion, or is unchanged |
| Mover.PlanMove | main.py:265-277 | planned exactly when both paths parse; the copy source is the raw path split at its first `/`; the destination is `(dest_bucket, os.path.join(dest_dir, basename(source_key)))` of the two parses; the delete target is the parse of the source; without `"s3://"` in the source, the copy source is the delete target |
| Mover.CopySourceMatchesParse | main.py:265-273 | a path that parses also splits at its first `/`, and the two agree when it has no `"s3://"` |
| Mover.MoveFilesToS3 | main.py:263-280 | the outcome and new store are those of `Move`: a bad locator, a failed copy or a failed delete is caught and logged, never raised |
| Mover.MovedMeansRelocated | main.py:271-277 | a completed move had no faults; it leaves the source's bytes at the destination and the delete target gone, and no other key changes |
| Mover.FailedCopyChangesNothing | main.py:271-280 | when the copy raises, nothing is deleted and the store is unchanged |
| Mover.FailedDeleteKeepsBothCopies | main.py:277-280 | when the delete raises, the object is at both the source and the destination |
| Mover.MalformedLocatorChangesNothing | main.py:264-280 | a path that does not parse leaves the store unchanged |
| Mover.MovedIff | main.py:271-277 | a move completes exactly when neither call fails and the source can be copied |
| Mover.MoveNeverLosesSource | main.py:263-280 | for a source without `"s3://"` that exists, its bytes remain at the source or reach the destination, whatever fails |
| Mover.MismatchedDeleteKeepsOriginal | main.py:271-277 | when the copy source and delete target differ, a completed move keeps the original and deletes another object |
| Mover.SchemeInKeyPlan | main.py:265-277 | moving `b/s3://k` copies from key `s3://k` and deletes key `k` |
| Mover.DestinationKeyExample | main.py:267 | `join("out/", basename("k"))` is `out/k` |
| Mover.ListedPathSplits | main.py:273 | `b/s3://k` splits into bucket `b`, key `s3://k` |
| Mover.DestinationParses | main.py:266 | `s3://b/out/` parses as bucket `b`, key `out/` |
| Paginator.FileKeys | main.py:243-248 | the file keys are exactly the response's keys that do not end in `/`, never more of them |
| Paginator.PagePaths | main.py:243-251 | the page is `os.path.join(bucket, key)` for each file key, in response order |
| Paginator.CollectPaths | main.py:243-251 | the loop over the response skips folder markers and collects exactly `PagePaths` |
| Paginator.FileLister.constructor | main.py:226-229 | a generator that has yielded nothing, with `count_loop = 1` and `is_empty = False` |
| Paginator.FileLister.Next | main.py:230-261 | once the generator has finished, nothing changes; a raising listing finishes it; otherwise the page is the paths of a listing of the current store; an empty page ends the generator without yielding; a non-empty page is yielded and advances `count_loop`, so at most `n_loops` pages are yielded and none is empty |
| Paginator.FileKeysAppend | main.py:243-248 | filtering distributes over concatenation |
| Paginator.EmptyPageIffOnlyMarkers | main.py:243-256 | a page is empty exactly when every key of the response ends in `/` |
| Paginator.PageIsJoinedFileKeys | main.py:243-251 | a path is on the page exactly when it is the join of the bucket and a non-folder key of the response |
| Segregation.RoutePage | main.py:327-342 | one task per file, in page order, up to the first file whose pattern raises; each task moves its file to the directory its classification names |
| Segregation.AbortedPageIgnoresRest | main.py:327-347 | once a pattern has raised, the rest of the page is not routed |
| Segregation.SubmitPage | main.py:327-342 | the moves submitted for a page are those of `RoutePage` |
| Segregation.RunMoves | main.py:344 | every submitted move has an outcome |
| Segregation.RunPage | main.py:344 | all moves of a page run to completion, one after another, giving `RunMoves` |
| Segregation.ExtendPages | main.py:326-344 | a page listed from the store the previous pages left extends the run's history |
| Segregation.SegregatePage | main.py:326-344 | one page is routed and its moves run, and the store is what they leave |
| Segregation.StartSegregation | main.py:312-347 | an unparsable `s3_dir` ends the run with nothing changed; each page is listed from the store the previous page's moves left and routed by `RoutePage`; at most `n_loops` pages; a raising pattern ends the run after its page's submitted moves; a failed listing ends it; a run that completes early saw a listing with no files |
| Segregation.NoPatternUsesDefaultDate | main.py:322-342 | without a pattern, every file goes under `default_date.strftime(s3_segregated_dir)` and nothing raises |
| Segregation.RoutedByClassification | main.py:328-342 | an undated file goes to `s3_error_dir`; a dated one goes under its date's directory |
| Segregation.RunMovesPrefix | main.py:344 | the first `k` outcomes of a page are those of running its first `k` moves |
| Segregation.EachMoveRuns | main.py:339-344 | each move runs on the store the earlier moves left, and its outcome depends only on that store and its own faults; a failed sibling stops nothing |
| Segregation.MoveFrame | main.py:263-280 | a move changes only its destination and its delete target |
| Segregation.RunMovesFrame | main.py:339-344 | a page's moves leave every object they do not name unchanged |
| Segregation.IsolatedMoveOutcome | main.py:339-344 | a move whose copy source no sibling copies to or deletes has the outcome it has alone on the page's starting store, in whatever order the moves run |
| Segregation.OutcomeReadsOnlySource | main.py:263-280 | a move's outcome depends on the store only through whether its copy source exists |
| Segregation.OnlyMarkersMovesNothing | main.py:228-256 | when only folder markers lie under the prefix, no page is produced and the store is unchanged |
| Config.ParseConfigElement | main.py:26-35 | the result is `ElementValue`: the text of a childless element, otherwise a dictionary of its children |
| Config.ParseConfig | main.py:37-42 | the configuration's keys are exactly the tags of the root's children |
| Config.ChildKeys | main.py:30-35 | a child dictionary has exactly one key per tag read |
| Config.ElementValueShape | main.py:26-35 | a leaf is exactly a childless element and carries its text; a dictionary's keys are its children's tags |
| Config.LastDuplicateWins | main.py:31-34 | of children sharing a tag, the last one supplies the value |
| Config.ConfigDict.constructor | main.py:72 | a dictionary holding the parsed entries |
| Config.ConfigDict.RefineIntSetting | main.py:184-205 | the in-place pass for one key gives `RefineInt`; a failed conversion raises and leaves the dictionary unchanged |
| Config.ConfigDict.RefineIntSettings | main.py:140-205 | the `time_delay`, `n_keys` and `n_loops` passes in order give `RefineDefaults` |
| Config.RefineIntResult | main.py:184-205 | the key ends up a non-zero integer: the converted value when it was set and non-zero, the default otherwise; no other key changes |
| Config.RefineIntFails | main.py:185-191 | the pass raises exactly when a set, truthy value does not convert to an integer |
| Config.RefineIntIdempotent | main.py:184-205 | refining a refined key changes nothing |
| Config.MissingSettingsGetDefaults | main.py:199-204 | missing `time_delay`, `n_keys` and `n_loops` become 86400, 500 and 10 |

## Left out

- boto3 itself: the client is an abstract store. Listing order is free, where S3 returns keys in
  lexicographic order. Each call's failure is an injected flag, and one failure kind stands for every
  botocore exception.
- ObjectStore.Client.CopyObject: the model refuses a copy onto itself. S3 refuses it without a metadata
  change, and that is the only S3 validation modelled.
- ObjectStore.Client.ListObjectsV2: `MaxKeys` is a natural number. A negative `n_keys` makes boto3 raise
  before the call, and that path is not modelled.
- Segregation.RunPage: the `ThreadPoolExecutor` concurrency is not modelled. A page's moves run one after
  another in submission order. `RunMovesFrame`, `IsolatedMoveOutcome` and `OnlyMarkersMovesNothing` hold
  whatever the order; `RunMovesPrefix` and `EachMoveRuns` do not. `n_workers` and `os.cpu_count` are left
  out with it.
- RunMovesPrefix: states the outcomes in submission order. That holds for the sequential run the model uses;
  the thread pool does not fix the order of a page's moves.
- EachMoveRuns: says each move runs on the store the moves submitted before it left. That holds only for the
  sequential run in submission order; `IsolatedMoveOutcome` is the order-free statement.
- Segregation.StartSegregation: `default_date` (`datetime.now() - timedelta(time_delay)`) is a parameter,
  because it reads the clock. `strftime` is a parameter too, and its failures are not modelled. Logging is
  left out apart from the outcome kinds it reports. `ThreadPoolExecutor(max_workers=n_workers)` raises for
  `n_workers <= 0`, which `os.cpu_count() // 2` gives on a one-CPU host; the run then ends before any
  listing. `RunEnd` has no such ending.
- DateExtractor.ExtractDatetimeFromFilename: the `re` engine is a parameter (`search`), so regular-expression
  semantics are not modelled. General `strptime` is also a parameter. `FixedWidthStrptime` instantiates it
  only for exact-width ASCII digit strings under `%Y%m%d` and `%Y%m%d%H`. Python's variable-width field
  matching and Unicode digits are not modelled.
- Config: `int()` of a string is a parameter (`toInt`). `n_workers` defaulting is left out because it reads
  `os.cpu_count()`. The required-key, path, permission and `str` checks of `validate_refine_config` are left
  out: they query the filesystem or only strip text. `process_date` is left out because it reads the clock
  or the command line.
- `ElementTree` file parsing, `argparse`, `validate_args`, `setup_logger` and the `__main__` block: these
  are I/O and command-line handling. The XML tree is given as an `Element` value.
