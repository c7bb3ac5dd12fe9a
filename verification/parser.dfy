/** The argument parser of perfmode: `parse_args` and its three
    sub-parsers, which turn the argument list (program name first) into a
    command or the `InvalidArgv` error. Matching is exact and case-sensitive. */
module Parser {
  import opened Command
  import opened Grammar

  /** `parse_fan_args`: a fan mode word, in long form or as a one-letter alias. */
  function ParseFan(arg: string): (r: Result<Cmd>)
    ensures r.Ok? ==> r.value.0 == Fan && Admissible(r.value)
    ensures r.Err? ==> r.error == InvalidArgv
  {
    match arg
    case "silent" | "s" => Ok((Fan, Silent))
    case "balanced" | "b" => Ok((Fan, Balanced))
    case "turbo" | "t" => Ok((Fan, Turbo))
    case "get" | "g" => Ok((Fan, Get))
    case _ => Err(InvalidArgv)
  }

  /** `parse_thermal_args`: a thermal policy word, long form or alias. */
  function ParseThermal(arg: string): (r: Result<Cmd>)
    ensures r.Ok? ==> r.value.0 == Thermal && Admissible(r.value)
    ensures r.Err? ==> r.error == InvalidArgv
  {
    match arg
    case "silent" | "s" => Ok((Thermal, Silent))
    case "default" | "df" => Ok((Thermal, Default))
    case "overboost" | "ob" => Ok((Thermal, Overboost))
    case "get" | "g" => Ok((Thermal, Get))
    case _ => Err(InvalidArgv)
  }

  /** `parse_led_args`: a backlight level (long form only) or the query. */
  function ParseLed(arg: string): (r: Result<Cmd>)
    ensures r.Ok? ==> r.value.0 == Led && Admissible(r.value)
    ensures r.Err? ==> r.error == InvalidArgv
  {
    match arg
    case "off" => Ok((Led, Off))
    case "min" => Ok((Led, Min))
    case "med" => Ok((Led, Med))
    case "max" => Ok((Led, Max))
    case "get" | "g" => Ok((Led, Get))
    case _ => Err(InvalidArgv)
  }

  /** `parse_args` with the second-token access bounds-checked: a subsystem
      flag with nothing after it is `InvalidArgv`. Tokens after the second
      are ignored. */
  function ParseArgs(args: seq<string>): (r: Result<Cmd>)
    ensures |args| < 2 ==> r == Ok((Help, Get))
    ensures |args| >= 2 && args[1] in Flags(Help) ==> r == Ok((Help, Get))
    ensures |args| >= 2 && args[1] !in AllFlags() ==> r == Err(InvalidArgv)
    ensures |args| == 2 && args[1] !in Flags(Help) ==> r == Err(InvalidArgv)
    ensures r.Ok? ==> Admissible(r.value)
    ensures r.Err? ==> r.error == InvalidArgv
    ensures r.Ok? && r.value.0 == Help <==> |args| < 2 || args[1] in Flags(Help)
  {
    if |args| < 2 then Ok((Help, Get))
    else
      match args[1]
      case "-help" | "-h" => Ok((Help, Get))
      case "-fan" | "-f" => if |args| < 3 then Err(InvalidArgv) else ParseFan(args[2])
      case "-thermal" | "-t" => if |args| < 3 then Err(InvalidArgv) else ParseThermal(args[2])
      case "-led" | "-l" => if |args| < 3 then Err(InvalidArgv) else ParseLed(args[2])
      case _ => Err(InvalidArgv)
  }

  /** Every fan word, long form or alias, parses to its operation. */
  lemma FanWordAccepted(arg: string, o: Operation)
    requires exists i :: 0 <= i < |FanWords| && FanWords[i] == Word(arg, o)
    ensures ParseFan(arg) == Ok((Fan, o))
  {
  }

  /** A token that is no fan word, however close, is rejected. */
  lemma FanOtherRejected(arg: string)
    requires forall i :: 0 <= i < |FanWords| ==> FanWords[i].token != arg
    ensures ParseFan(arg) == Err(InvalidArgv)
  {
    assert FanWords[0].token != arg && FanWords[1].token != arg;
    assert FanWords[2].token != arg && FanWords[3].token != arg;
    assert FanWords[4].token != arg && FanWords[5].token != arg;
    assert FanWords[6].token != arg && FanWords[7].token != arg;
  }

  /** The fan sub-parser accepts exactly the fan words, each meaning its
      table operation, and rejects everything else. */
  lemma ParseFanMatchesWords(arg: string)
    ensures ParseFan(arg) == Interpret(Fan, arg)
  {
    var r := Lookup(FanWords, arg);
    if r.Some? {
      FanWordAccepted(arg, r.value);
    } else {
      FanOtherRejected(arg);
    }
  }

  /** Every thermal word, long form or alias, parses to its operation. */
  lemma ThermalWordAccepted(arg: string, o: Operation)
    requires exists i :: 0 <= i < |ThermalWords| && ThermalWords[i] == Word(arg, o)
    ensures ParseThermal(arg) == Ok((Thermal, o))
  {
  }

  /** A token that is no thermal word is rejected. */
  lemma ThermalOtherRejected(arg: string)
    requires forall i :: 0 <= i < |ThermalWords| ==> ThermalWords[i].token != arg
    ensures ParseThermal(arg) == Err(InvalidArgv)
  {
    assert ThermalWords[0].token != arg && ThermalWords[1].token != arg;
    assert ThermalWords[2].token != arg && ThermalWords[3].token != arg;
    assert ThermalWords[4].token != arg && ThermalWords[5].token != arg;
    assert ThermalWords[6].token != arg && ThermalWords[7].token != arg;
  }

  /** The thermal sub-parser accepts exactly the thermal words. */
  lemma ParseThermalMatchesWords(arg: string)
    ensures ParseThermal(arg) == Interpret(Thermal, arg)
  {
    var r := Lookup(ThermalWords, arg);
    if r.Some? {
      ThermalWordAccepted(arg, r.value);
    } else {
      ThermalOtherRejected(arg);
    }
  }

  /** Every backlight word parses to its operation. */
  lemma LedWordAccepted(arg: string, o: Operation)
    requires exists i :: 0 <= i < |LedWords| && LedWords[i] == Word(arg, o)
    ensures ParseLed(arg) == Ok((Led, o))
  {
  }

  /** A token that is no backlight word is rejected; in particular the
      levels have no one-letter aliases. */
  lemma LedOtherRejected(arg: string)
    requires forall i :: 0 <= i < |LedWords| ==> LedWords[i].token != arg
    ensures ParseLed(arg) == Err(InvalidArgv)
  {
    assert LedWords[0].token != arg && LedWords[1].token != arg;
    assert LedWords[2].token != arg && LedWords[3].token != arg;
    assert LedWords[4].token != arg && LedWords[5].token != arg;
  }

  /** The backlight sub-parser accepts exactly the backlight words. */
  lemma ParseLedMatchesWords(arg: string)
    ensures ParseLed(arg) == Interpret(Led, arg)
  {
    var r := Lookup(LedWords, arg);
    if r.Some? {
      LedWordAccepted(arg, r.value);
    } else {
      LedOtherRejected(arg);
    }
  }

  /** The sub-parser `parse_args` hands the second token to, by operator. */
  function ParseOperation(op: Operator, arg: string): (r: Result<Cmd>)
    requires op != Help
    ensures r == Interpret(op, arg)
  {
    match op
    case Fan => ParseFanMatchesWords(arg); ParseFan(arg)
    case Thermal => ParseThermalMatchesWords(arg); ParseThermal(arg)
    case Led => ParseLedMatchesWords(arg); ParseLed(arg)
  }

  /** A subsystem flag selects its operator and hands on the second token. */
  lemma ParseArgsSubsystem(args: seq<string>, op: Operator)
    requires |args| >= 2 && op != Help && args[1] in Flags(op)
    ensures ParseArgs(args) == if |args| < 3 then Err(InvalidArgv) else ParseOperation(op, args[2])
  {
    if |args| >= 3 {
      match op
      case Fan => assert ParseArgs(args) == ParseFan(args[2]);
      case Thermal => assert ParseArgs(args) == ParseThermal(args[2]);
      case Led => assert ParseArgs(args) == ParseLed(args[2]);
    }
  }

  /** The parser is exactly the grammar: it returns `c` if and only if the
      argument list denotes `c`, and fails when the list denotes nothing. */
  lemma ParseArgsMatchesGrammar(args: seq<string>, c: Cmd)
    ensures ParseArgs(args) == Ok(c) <==> Denotes(args, c)
  {
    if |args| >= 2 && args[1] !in Flags(Help) && args[1] in AllFlags() {
      var op :| op != Help && args[1] in Flags(op);
      ParseArgsSubsystem(args, op);
      if c.0 != op && args[1] in Flags(c.0) {
        FlagsDisjoint(op, c.0);
      }
    }
  }

  /** The canonical argument list of a command: the long flag followed by
      the long form of the operation word; help takes no word. */
  function CommandLine(c: Cmd): (args: seq<string>)
    ensures |args| >= 2 && args[1] in Flags(c.0)
  {
    if c.0 == Help then ["perfmode", LongFlag(Help)]
    else ["perfmode", LongFlag(c.0), Spelling(c.1)]
  }

  /** Parsing the canonical argument list of an admissible command gives
      the command back. */
  lemma ParseCommandLine(c: Cmd)
    requires Admissible(c)
    ensures ParseArgs(CommandLine(c)) == Ok(c)
  {
    var args := CommandLine(c);
    if c.0 != Help {
      assert Words(c.0)[LongFormIndex(c.0, c.1)] == Word(Spelling(c.1), c.1);
      ParseArgsSubsystem(args, c.0);
      WordAccepted(c.0, Spelling(c.1), c.1);
    }
  }

  /** Every word of an operator's table parses to its operation. */
  lemma WordAccepted(op: Operator, arg: string, o: Operation)
    requires op != Help && exists i :: 0 <= i < |Words(op)| && Words(op)[i] == Word(arg, o)
    ensures ParseOperation(op, arg) == Ok((op, o))
  {
    match op
    case Fan => FanWordAccepted(arg, o);
    case Thermal => ThermalWordAccepted(arg, o);
    case Led => LedWordAccepted(arg, o);
  }

  /** The commands some argument list produces are exactly the admissible
      ones: help only ever comes with `Get`, and each subsystem only with
      its own operations. */
  lemma ParseReachesExactlyAdmissible(c: Cmd)
    ensures (exists args :: ParseArgs(args) == Ok(c)) <==> Admissible(c)
  {
    if Admissible(c) {
      ParseCommandLine(c);
    }
  }

  /** Tokens after the operation word never change the outcome. */
  lemma TrailingTokensIgnored(args: seq<string>, extra: seq<string>)
    requires |args| >= 3
    ensures ParseArgs(args + extra) == ParseArgs(args)
  {
    assert (args + extra)[1] == args[1] && (args + extra)[2] == args[2];
  }

  /** The program name (the first element) never changes the outcome. */
  lemma ProgramNameIgnored(args: seq<string>, name: string)
    requires |args| >= 1
    ensures ParseArgs(args[0 := name]) == ParseArgs(args)
  {
  }

  /** The outcome of a call in the source: a value, or a panic. */
  datatype Outcome<T> = Returned(result: T) | Panicked

  /** `parse_args` as written: a subsystem flag reads `args[2]` without a
      bounds check, and Rust slice indexing past the end panics, so a
      two-element list with such a flag panics. */
  function ParseArgsAsWritten(args: seq<string>): (o: Outcome<Result<Cmd>>)
    ensures o.Panicked? <==> |args| == 2 && args[1] in AllFlags() - Flags(Help)
  {
    if |args| < 2 then Returned(Ok((Help, Get)))
    else
      match args[1]
      case "-help" | "-h" => Returned(Ok((Help, Get)))
      case "-fan" | "-f" => if |args| < 3 then Panicked else Returned(ParseFan(args[2]))
      case "-thermal" | "-t" => if |args| < 3 then Panicked else Returned(ParseThermal(args[2]))
      case "-led" | "-l" => if |args| < 3 then Panicked else Returned(ParseLed(args[2]))
      case _ => Returned(Err(InvalidArgv))
  }

  /** The smallest input that shows the panic: `perfmode -fan`. The
      corrected parser reports `InvalidArgv` instead. */
  lemma AsWrittenPanicsOnMissingWord()
    ensures ParseArgsAsWritten(["perfmode", "-fan"]) == Panicked
    ensures ParseArgs(["perfmode", "-fan"]) == Err(InvalidArgv)
  {
  }

  /** Wherever the source returns, the corrected parser returns the same
      thing; where it panics, the corrected parser reports `InvalidArgv`. */
  lemma CorrectedAgreesWithAsWritten(args: seq<string>)
    ensures ParseArgsAsWritten(args).Returned? ==> ParseArgsAsWritten(args).result == ParseArgs(args)
    ensures ParseArgsAsWritten(args).Panicked? ==> ParseArgs(args) == Err(InvalidArgv)
  {
  }
}
