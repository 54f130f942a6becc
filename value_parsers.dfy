/** The two value parsers of the configuration: the log level
    (`parseLogLevel`) and the initial binlog position (`--init_position`). */
module ValueParsers {
  import opened Basics
  import opened JavaText

  const LOG_LEVELS: set<string> := {"debug", "info", "warn", "error"}

  /** `parseLogLevel`: the level is lower-cased, and must then be one of the
      four names; the lower-cased text is what is kept (and what the usage
      message quotes). */
  function ParseLogLevel(level: string): (r: Result<string>)
    ensures r.Ok? ==> r.value in LOG_LEVELS
    ensures r.Err? ==> r.failure == Usage(UnknownLogLevel(ToLower(level)))
  {
    var lowered := ToLower(level);
    if lowered in LOG_LEVELS then Ok(lowered) else Err(Usage(UnknownLogLevel(lowered)))
  }

  /** Equality of two strings up to the case of ASCII letters. */
  predicate EqualsIgnoreCase(a: string, b: string)
  {
    |a| == |b| && forall i :: 0 <= i < |a| ==> LowerChar(a[i]) == LowerChar(b[i])
  }

  /** The accepted log levels are exactly the four names written in any
      mixture of cases, and the result is the name itself. */
  lemma ParseLogLevelAccepts(level: string, name: string)
    requires name in LOG_LEVELS
    ensures ParseLogLevel(level) == Ok(name) <==> EqualsIgnoreCase(level, name)
  {
    ToLowerShape(level);
    ToLowerShape(name);
    assert ToLower(name) == name;
    if EqualsIgnoreCase(level, name) {
      assert ToLower(level) == ToLower(name);
    }
  }

  /** A level that was accepted is accepted again unchanged. */
  lemma ParseLogLevelStable(level: string)
    requires ParseLogLevel(level).Ok?
    ensures ParseLogLevel(ParseLogLevel(level).value) == ParseLogLevel(level)
  {
    ToLowerIdempotent(level);
  }

  /** A refused level prints the lower-cased text after "unknown log level: ". */
  lemma ParseLogLevelMessage(level: string)
    requires ParseLogLevel(level).Err?
    ensures ParseLogLevel(level).failure.Usage?
    ensures UsageMessage(ParseLogLevel(level).failure.reason) == "unknown log level: " + ToLower(level)
  {
  }

  datatype BinlogPosition = BinlogPosition(file: string, offset: int64)

  /** `--init_position=FILE:OFFSET`: the value split on `:` must give exactly
      two pieces (trailing empty pieces are dropped by `split`), and the
      second must be a `long`; either failure is the same usage error. */
  function ParseInitPosition(value: string): (r: Result<BinlogPosition>)
    ensures r.Err? ==> r.failure == Usage(InvalidInitPosition(value))
  {
    var parts := Split(value, ':');
    if |parts| != 2 then Err(Usage(InvalidInitPosition(value)))
    else
      match LongValueOf(parts[1])
      case None => Err(Usage(InvalidInitPosition(value)))
      case Some(offset) => Ok(BinlogPosition(parts[0], offset))
  }

  /** A refused position prints the whole value after "Invalid init_position: ". */
  lemma ParseInitPositionMessage(value: string)
    requires ParseInitPosition(value).Err?
    ensures ParseInitPosition(value).failure.Usage?
    ensures UsageMessage(ParseInitPosition(value).failure.reason) == "Invalid init_position: " + value
  {
  }

  /** The text `--init_position` is given for a position. */
  function PositionText(pos: BinlogPosition): string
  {
    pos.file + [':'] + IntToString(pos.offset)
  }

  /** A colon-free file name, a colon, a colon-free non-empty offset text and
      any number of trailing colons: the outcome is decided by the offset
      text alone. */
  lemma InitPositionOfParts(file: string, offsetText: string, k: nat)
    requires ':' !in file && ':' !in offsetText && offsetText != []
    ensures var value := file + [':'] + offsetText + Repeat(':', k);
      ParseInitPosition(value)
        == match LongValueOf(offsetText)
           case None => Err(Usage(InvalidInitPosition(value)))
           case Some(n) => Ok(BinlogPosition(file, n))
  {
    var value := file + [':'] + offsetText + Repeat(':', k);
    assert value[|file|] == ':';
    assert value == file + [':'] + (offsetText + Repeat(':', k));
    PiecesAfterHead(file, ':', offsetText + Repeat(':', k));
    PiecesOfTrailingSeparators(offsetText, ':', k);
    assert Pieces(value, ':') == [file, offsetText] + Empties(k);
    DropTrailingEmptyKeepsLast([file, offsetText], k);
  }

  /** Every accepted value has that shape: the file, a colon, an offset text
      that parses to the offset, and nothing after it but colons. */
  lemma InitPositionShape(value: string)
    requires ParseInitPosition(value).Ok?
    ensures var pos := ParseInitPosition(value).value;
      ':' !in pos.file &&
      exists offsetText: string, k: nat ::
        value == pos.file + [':'] + offsetText + Repeat(':', k) &&
        ':' !in offsetText && LongValueOf(offsetText) == Some(pos.offset)
  {
    var pos := ParseInitPosition(value).value;
    assert ':' in value;
    var parts := Pieces(value, ':');
    var kept := DropTrailingEmpty(parts);
    assert kept == Split(value, ':');
    DropTrailingEmptyShape(parts);
    var k := |parts| - |kept|;
    assert parts == kept + Empties(k);
    PiecesHaveNoSeparator(value, ':');
    assert kept[0] == parts[0] && kept[1] == parts[1];
    JoinPieces(value, ':');
    JoinWithEmpties(kept, k, ':');
    assert kept[1..] == [kept[1]];
    assert Join(kept, ':') == kept[0] + [':'] + kept[1];
    assert value == pos.file + [':'] + kept[1] + Repeat(':', k);
  }

  /** Rendering a position with a colon-free file name and parsing it back
      gives the position. */
  lemma InitPositionRoundTrip(pos: BinlogPosition)
    requires ':' !in pos.file
    ensures ParseInitPosition(PositionText(pos)) == Ok(pos)
  {
    var text := IntToString(pos.offset);
    ParseRenderedDecimal(pos.offset, LONG_MIN, LONG_MAX);
    RenderedDecimalHasNoColon(pos.offset);
    InitPositionOfParts(pos.file, text, 0);
    assert PositionText(pos) == pos.file + [':'] + text + Repeat(':', 0);
  }

  /** The offset is a signed `long`: a negative offset is accepted. */
  lemma InitPositionNegativeOffset()
    ensures ParseInitPosition("mysql-bin.001:-5") == Ok(BinlogPosition("mysql-bin.001", -5))
  {
    assert "5"[..0] == [];
    assert DigitsValue("5") == 5;
    assert "-5"[1..] == "5";
    assert LongValueOf("-5") == Some(-5);
    InitPositionOfParts("mysql-bin.001", "-5", 0);
    assert "mysql-bin.001:-5" == "mysql-bin.001" + [':'] + "-5" + Repeat(':', 0);
  }

  /** A typical position is accepted. */
  lemma InitPositionExample()
    ensures ParseInitPosition("mysql-bin.001:456") == Ok(BinlogPosition("mysql-bin.001", 456))
  {
    assert "456"[..2] == "45" && "45"[..1] == "4" && "4"[..0] == [];
    assert DigitsValue("456") == 456;
    assert LongValueOf("456") == Some(456);
    InitPositionOfParts("mysql-bin.001", "456", 0);
    assert "mysql-bin.001:456" == "mysql-bin.001" + [':'] + "456" + Repeat(':', 0);
  }

  /** An offset that is not a number is refused. */
  lemma InitPositionNonNumericOffset()
    ensures ParseInitPosition("file:abc") == Err(Usage(InvalidInitPosition("file:abc")))
  {
    assert !IsDigit("abc"[0]);
    assert LongValueOf("abc") == None;
    InitPositionOfParts("file", "abc", 0);
    assert "file:abc" == "file" + [':'] + "abc" + Repeat(':', 0);
  }

  /** Trailing colons are dropped by `split`, so they are accepted. */
  lemma InitPositionTrailingColons()
    ensures ParseInitPosition("f:12::") == Ok(BinlogPosition("f", 12))
  {
    assert "12"[..1] == "1" && "1"[..0] == [];
    assert DigitsValue("12") == 12;
    assert LongValueOf("12") == Some(12);
    InitPositionOfParts("f", "12", 2);
    assert "f:12::" == "f" + [':'] + "12" + Repeat(':', 2);
  }

  /** A value whose offset is empty leaves a single piece and is refused. */
  lemma InitPositionMissingOffset()
    ensures ParseInitPosition("f:") == Err(Usage(InvalidInitPosition("f:")))
  {
    assert "f:" == "f" + [':'] + [];
    PiecesAfterHead("f", ':', []);
    assert Pieces("f:", ':') == ["f", []];
    assert ["f", []][..1] == ["f"];
    assert DropTrailingEmpty(["f", []]) == ["f"];
    assert ':' in "f:";
  }

  /** A value without a colon is a single piece and is refused. */
  lemma InitPositionWithoutColon()
    ensures ParseInitPosition("bad") == Err(Usage(InvalidInitPosition("bad")))
  {
    assert ':' !in "bad";
  }
}
