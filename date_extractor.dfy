/** `extract_datetime_from_filename`: search a filename with the configured pattern, join the
    text of every capture group in order, and parse the result with the configured format. */
module DateExtractor {
  import opened Wrappers
  import opened DateTimes

  /** What `re.compile(pattern).search(text)` yields: a compile error, no match, or the value
      of every capture group in group order (`None` for an optional group that did not take part). */
  datatype SearchOutcome = PatternError | NoMatch | Match(groups: seq<Option<string>>)

  /** The log record written when a file cannot be classified; the first words of each message
      are "no match found" and "fail to convert date". */
  datatype Diagnostic =
    | NoMatchFound(filename: string, pattern: string)
    | FailToConvertDate(filename: string, pattern: string, dateStr: string, format: string)

  /** The function's result: a date, or `None` together with the diagnostic it logged. */
  datatype Classification = Dated(date: DateTime) | Unclassified(diagnostic: Diagnostic)

  /** `re.error`, raised by `re.compile` and not caught inside the function. */
  datatype RegexError = InvalidPattern(pattern: string)

  /** `str(g)` for a group value. */
  function GroupText(g: Option<string>): string
  {
    match g
    case None => "None"
    case Some(t) => t
  }

  /** `''.join(str(g) for g in groups)`. */
  function JoinGroups(groups: seq<Option<string>>): string
  {
    if groups == [] then "" else GroupText(groups[0]) + JoinGroups(groups[1..])
  }

  function ExtractDatetimeFromFilename(
    filename: string, regexPattern: string, datetimeFormat: string,
    search: (string, string) -> SearchOutcome,
    strptime: (string, string) -> Option<DateTime>
  ): (r: Result<Classification, RegexError>)
    ensures r.Failure? <==> search(regexPattern, filename).PatternError?
    ensures r == Success(Unclassified(NoMatchFound(filename, regexPattern)))
            <==> search(regexPattern, filename).NoMatch?
    ensures r.Success? && r.value.Dated?
            <==> search(regexPattern, filename).Match?
                 && strptime(JoinGroups(search(regexPattern, filename).groups), datetimeFormat).Some?
    ensures r.Success? && r.value.Dated?
            ==> Some(r.value.date) == strptime(JoinGroups(search(regexPattern, filename).groups), datetimeFormat)
    ensures search(regexPattern, filename).Match?
            && strptime(JoinGroups(search(regexPattern, filename).groups), datetimeFormat).None?
            ==> r == Success(Unclassified(FailToConvertDate(filename, regexPattern,
                      JoinGroups(search(regexPattern, filename).groups), datetimeFormat)))
  {
    match search(regexPattern, filename)
    case PatternError => Failure(InvalidPattern(regexPattern))
    case NoMatch => Success(Unclassified(NoMatchFound(filename, regexPattern)))
    case Match(groups) =>
      var dateStr := JoinGroups(groups);
      match strptime(dateStr, datetimeFormat)
      case None => Success(Unclassified(FailToConvertDate(filename, regexPattern, dateStr, datetimeFormat)))
      case Some(d) => Success(Dated(d))
  }

  // ---------------------------------------------------------------------------
  // Properties

  /** Groups concatenate left to right with no separator. */
  lemma {:induction false} JoinGroupsAppend(a: seq<Option<string>>, b: seq<Option<string>>)
    ensures JoinGroups(a + b) == JoinGroups(a) + JoinGroups(b)
  {
    if a != [] {
      assert (a + b)[1..] == a[1..] + b;
      JoinGroupsAppend(a[1..], b);
    } else {
      assert a + b == b;
    }
  }

  /** A filename whose groups spell the rendering of a date under a fixed format is
      classified as exactly that date. */
  lemma ClassifiesRenderedDate(
    filename: string, regexPattern: string, search: (string, string) -> SearchOutcome,
    dt: DateTime, f: FixedFormat)
    requires Representable(dt, f)
    requires search(regexPattern, filename).Match?
    requires JoinGroups(search(regexPattern, filename).groups) == FormatFixed(dt, f)
    ensures ExtractDatetimeFromFilename(filename, regexPattern, Directives(f), search, FixedWidthStrptime)
            == Success(Dated(dt))
  {
    ParseFormatRoundTrip(dt, f);
  }

  /** An optional group that did not take part contributes the text "None", so under a
      digit format the file is always unclassified, with the "fail to convert date" record. */
  lemma UnmatchedGroupFailsToConvert(
    filename: string, regexPattern: string, datetimeFormat: string,
    search: (string, string) -> SearchOutcome, i: nat)
    requires search(regexPattern, filename).Match?
    requires i < |search(regexPattern, filename).groups|
    requires search(regexPattern, filename).groups[i] == None
    ensures ExtractDatetimeFromFilename(filename, regexPattern, datetimeFormat, search, FixedWidthStrptime)
            == Success(Unclassified(FailToConvertDate(filename, regexPattern,
                 JoinGroups(search(regexPattern, filename).groups), datetimeFormat)))
  {
    var gs := search(regexPattern, filename).groups;
    JoinGroupsAppend(gs[..i], gs[i..]);
    assert gs == gs[..i] + gs[i..];
    assert gs[i..] == [gs[i]] + gs[i + 1..];
    var joined := JoinGroups(gs);
    var k := |JoinGroups(gs[..i])|;
    assert joined[k] == 'N';
    assert !AllDigits(joined);
  }

  /** A pattern with no groups joins to the empty string, which no fixed format accepts. */
  lemma NoGroupsIsUnclassified(
    filename: string, regexPattern: string, datetimeFormat: string,
    search: (string, string) -> SearchOutcome)
    requires search(regexPattern, filename) == Match([])
    ensures ExtractDatetimeFromFilename(filename, regexPattern, datetimeFormat, search, FixedWidthStrptime).value.Unclassified?
  {
  }

  // ---------------------------------------------------------------------------
  // The cases of the repository's test file, with the regex engine's answer as the premise

  lemma SingleGroupExample(search: (string, string) -> SearchOutcome)
    requires search("CHARGINGCDR_.*-(\\d{8})-.*.ber", "CHARGINGCDR_4008-BROCC3-20240901-234125-56908.ber")
             == Match([Some("20240901")])
    ensures ExtractDatetimeFromFilename("CHARGINGCDR_4008-BROCC3-20240901-234125-56908.ber",
              "CHARGINGCDR_.*-(\\d{8})-.*.ber", "%Y%m%d", search, FixedWidthStrptime)
            == Success(Dated(DateTime(2024, 9, 1, 0, 0, 0)))
  {
    var dt := DateTime(2024, 9, 1, 0, 0, 0);
    RendersAsSingleExample();
    assert JoinGroups([Some("20240901")]) == "20240901";
    ClassifiesRenderedDate("CHARGINGCDR_4008-BROCC3-20240901-234125-56908.ber",
      "CHARGINGCDR_.*-(\\d{8})-.*.ber", search, dt, Ymd);
  }

  lemma MultiGroupExample(search: (string, string) -> SearchOutcome)
    requires search("^CHARGINGCDR_.*-(\\d{8})-?(\\d{2}).*",
                    "CHARGINGCDR_4008-BRCCNH-CCNCDR44-01-Blk0Blk-8421-20221231-100511-78.ccn")
             == Match([Some("20221231"), Some("10")])
    ensures ExtractDatetimeFromFilename("CHARGINGCDR_4008-BRCCNH-CCNCDR44-01-Blk0Blk-8421-20221231-100511-78.ccn",
              "^CHARGINGCDR_.*-(\\d{8})-?(\\d{2}).*", "%Y%m%d%H", search, FixedWidthStrptime)
            == Success(Dated(DateTime(2022, 12, 31, 10, 0, 0)))
  {
    var dt := DateTime(2022, 12, 31, 10, 0, 0);
    RendersAsExample();
    assert JoinGroups([Some("20221231"), Some("10")]) == "20221231" + "10";
    ClassifiesRenderedDate("CHARGINGCDR_4008-BRCCNH-CCNCDR44-01-Blk0Blk-8421-20221231-100511-78.ccn",
      "^CHARGINGCDR_.*-(\\d{8})-?(\\d{2}).*", search, dt, YmdH);
  }

  lemma RendersAsSingleExample()
    ensures FormatFixed(DateTime(2024, 9, 1, 0, 0, 0), Ymd) == "20240901"
  {
    assert Pad(2024, 4) == "2024";
    assert Pad(9, 2) == "09";
    assert Pad(1, 2) == "01";
  }

  lemma RendersAsExample()
    ensures FormatFixed(DateTime(2022, 12, 31, 10, 0, 0), YmdH) == "2022123110"
  {
    assert Pad(2022, 4) == "2022";
    assert Pad(12, 2) == "12";
    assert Pad(31, 2) == "31";
    assert Pad(10, 2) == "10";
  }

  lemma NoMatchExample(search: (string, string) -> SearchOutcome)
    requires search("(\\d{4})-(\\d{2})-(\\d{2})", "report_wrong_format.txt") == NoMatch
    ensures ExtractDatetimeFromFilename("report_wrong_format.txt", "(\\d{4})-(\\d{2})-(\\d{2})",
              "%Y%m%d", search, FixedWidthStrptime)
            == Success(Unclassified(NoMatchFound("report_wrong_format.txt", "(\\d{4})-(\\d{2})-(\\d{2})")))
  {
  }

  lemma MonthOutOfRangeExample(search: (string, string) -> SearchOutcome)
    requires search("(\\d{4})-(\\d{2})-(\\d{2})", "report_2022-30-12.txt")
             == Match([Some("2022"), Some("30"), Some("12")])
    ensures ExtractDatetimeFromFilename("report_2022-30-12.txt", "(\\d{4})-(\\d{2})-(\\d{2})",
              "%Y%m%d", search, FixedWidthStrptime)
            == Success(Unclassified(FailToConvertDate("report_2022-30-12.txt",
                 "(\\d{4})-(\\d{2})-(\\d{2})", "20223012", "%Y%m%d")))
  {
    var s := "20223012";
    assert JoinGroups([Some("2022"), Some("30"), Some("12")]) == s;
    assert s[4..6] == "30";
    assert DigitsValue("30") == 30 by { assert "30"[..1] == "3"; }
  }

  lemma YearZeroExample(search: (string, string) -> SearchOutcome)
    requires search("(\\d{4})-(\\d{2})-(\\d{2})", "report_0000-00-00.txt")
             == Match([Some("0000"), Some("00"), Some("00")])
    ensures ExtractDatetimeFromFilename("report_0000-00-00.txt", "(\\d{4})-(\\d{2})-(\\d{2})",
              "%Y%m%d", search, FixedWidthStrptime)
            == Success(Unclassified(FailToConvertDate("report_0000-00-00.txt",
                 "(\\d{4})-(\\d{2})-(\\d{2})", "00000000", "%Y%m%d")))
  {
    var s := "00000000";
    assert JoinGroups([Some("0000"), Some("00"), Some("00")]) == s;
    assert s[4..6] == "00";
    assert DigitsValue("00") == 0 by { assert "00"[..1] == "0"; }
  }
}
