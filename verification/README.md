# perfmode command-line front end, modelled in Dafny

perfmode switches the keyboard backlight level, the fan boost mode and the
thermal throttling policy of an Asus laptop. It does this by writing
single-character values to fixed sysfs files. This project models the
program's decision front end in `src/main.rs`:

- **The command model.** It has the `Operation`, `Operator` and `Error` tags (`command.dfy`, module `Command`).
- **The argument parser.** `parse_args` turns the argument list (program name first) into an
  `(Operator, Operation)` pair or `InvalidArgv`. It does so with three sub-parsers:
  `parse_fan_args`, `parse_thermal_args` and `parse_led_args`. These are
  `parser.dfy`, module `Parser`. They are written as Dafny string `match`es
  that mirror the Rust `match`es arm for arm.
- **The reference grammar.** `grammar.dfy`, module `Grammar`, states the accepted vocabulary as data:
  - the flags of each operator;
  - each operator's table of words (long forms and aliases);
  - a relational reading `Denotes(args, c)` of what an argument list means.

  Lemmas prove that the parser is exactly this grammar.
- **The control-file registry.** `FileList::path` maps five tags to absolute sysfs
  paths (`registry.dfy`, module `Registry`). It is proved injective. The two
  vendor drivers' files are proved to be the same path apart from the
  driver directory, `asus-nb-wmi` or `faustus`.

`Operations(op)` in `Command` says which operations pair with which operator:

- `Led` pairs with off, min, med, max and get.
- `Fan` pairs with silent, balanced, turbo and get.
- `Thermal` pairs with silent, default, overboost and get.
- `Help` pairs only with get.

The parser produces exactly these pairs and no others.

A few facts about the code that the model relies on:

- The operator `Led` is the keyboard backlight.
- The sub-parsers restrict each operator to its own words while
  parsing, so a parsed command is always an admissible pair.
- `parse_args` reads only the two tokens after the program name and ignores
  any further ones (`Parser.TrailingTokensIgnored`).

## Model

| member | source | states |
|---|---|---|
| Parser.ParseFan | src/main.rs:108-116 | a success is always the `Fan` operator with a fan operation; every failure is `InvalidArgv` |
| Parser.ParseThermal | src/main.rs:118-126 | a success is always `Thermal` with a thermal operation; every failure is `InvalidArgv` |
| Parser.ParseLed | src/main.rs:128-137 | a success is always `Led` with a backlight operation; every failure is `InvalidArgv` |
| Parser.ParseArgs | src/main.rs:94-106 | fewer than two elements, or a first token of exactly `-help`/`-h` whatever follows, gives `(Help, Get)`; the result is help exactly then; a first token other than the eight flags gives `InvalidArgv`; a subsystem flag with no second token gives `InvalidArgv`; every success is an admissible pair; the only error is `InvalidArgv` |
| Parser.FanWordAccepted | src/main.rs:110-113 | every fan word, long form or one-letter alias, parses to its operation |
| Parser.FanOtherRejected | src/main.rs:114 | any token that is not exactly a fan word is rejected with `InvalidArgv` |
| Parser.ParseFanMatchesWords | src/main.rs:108-116 | the fan sub-parser agrees with the fan word table on every token: accepts exactly its words, each meaning its listed operation |
| Parser.ThermalWordAccepted | src/main.rs:120-123 | every thermal word (`silent`/`s`, `default`/`df`, `overboost`/`ob`, `get`/`g`) parses to its operation |
| Parser.ThermalOtherRejected | src/main.rs:124 | any other token is rejected with `InvalidArgv` |
| Parser.ParseThermalMatchesWords | src/main.rs:118-126 | the thermal sub-parser agrees with the thermal word table on every token |
| Parser.LedWordAccepted | src/main.rs:130-134 | every backlight word (`off`, `min`, `med`, `max`, `get`, `g`) parses to its operation |
| Parser.LedOtherRejected | src/main.rs:135 | any other token, including one-letter forms of the levels, is rejected with `InvalidArgv` |
| Parser.ParseLedMatchesWords | src/main.rs:128-137 | the backlight sub-parser agrees with the backlight word table on every token |
| Parser.ParseOperation | src/main.rs:101-103 | the sub-parser each subsystem flag hands the second token to means what that operator's word table says |
| Parser.ParseArgsSubsystem | src/main.rs:101-103 | after a subsystem flag the outcome is decided by that operator's sub-parser applied to the second token, or `InvalidArgv` if there is none |
| Parser.ParseArgsMatchesGrammar | src/main.rs:94-137 | `parse_args` returns a command exactly when the argument list denotes it under the grammar, in both directions |
| Parser.ParseCommandLine | src/main.rs:94-137 | the canonical argument list of every admissible command (long flag, long word) parses back to that command |
| Parser.ParseReachesExactlyAdmissible | src/main.rs:94-137 | a command is produced by some argument list if and only if it is admissible, so help only ever comes with `Get` |
| Parser.TrailingTokensIgnored | src/main.rs:99-103 | appending tokens after the operation word never changes the result |
| Parser.ProgramNameIgnored | src/main.rs:95-99 | the first element (the program name) never changes the result |
| Parser.ParseArgsAsWritten | src/main.rs:94-106 | the source's parser panics exactly on a two-element list whose first token is a subsystem flag |
| Parser.AsWrittenPanicsOnMissingWord | src/main.rs:101 | `perfmode -fan` panics as written and gives `InvalidArgv` when corrected |
| Parser.CorrectedAgreesWithAsWritten | src/main.rs:94-106 | wherever the source returns, the corrected parser returns the same result; where it panics, the corrected parser returns `InvalidArgv` |
| Grammar.LongFlag | src/main.rs:100-103 | the long flag of each operator is one of its accepted flags |
| Grammar.FlagsDisjoint | src/main.rs:99-105 | no token selects two operators |
| Grammar.WordsWithinOperations | src/main.rs:108-137 | every word in an operator's table names an operation that operator admits |
| Grammar.LongFormIndex | src/main.rs:108-137 | every operation an operator admits has its long form listed in the operator's word table |
| Command.GetIsUniversal | src/main.rs:96-137 | `Get` is the only operation every operator accepts |
| Command.SharedOperations | src/main.rs:108-137 | fan and thermal share exactly `Silent` and `Get`; the backlight shares only `Get` with either |
| Registry.VendorFileBijective | src/main.rs:1-7 | the four policy tags are exactly the (vendor, policy) pairs, each once; the backlight tag is none of them |
| Registry.Path | src/main.rs:10-20 | exactly the four policy tags map to paths under `/sys/devices/platform/`; the backlight tag maps elsewhere. Injectivity is `Registry.PathInjective` and the parallel vendor layout is `Registry.VendorPathShape` |
| Registry.VendorPathShape | src/main.rs:13-18 | both drivers' files for one policy are the platform root, the driver directory and the same policy file name, so they differ only in the directory |
| Registry.PathInjective | src/main.rs:10-20 | two tags have the same path if and only if they are the same tag |

## Left out

- `print_help` (src/main.rs:68-92) and `Display for Error` (src/main.rs:55-66) produce output text only. The `Error` tags are modelled without their messages.
- The file resolver, the value codec and the read/write executor are outside this model, and so are the permission probing, the sysfs reads and writes, and the process exit codes.
- A Rust panic is modelled as a value (`Parser.Outcome.Panicked`). Unwinding and the process abort are not modelled.

## Findings

| source | as written | input that shows it | evidently intended | confidence | as-written member | corrected member |
|---|---|---|---|---|---|---|
| src/main.rs:101-103 | a subsystem flag reads `args[2]` with no bounds check, so the program panics | `perfmode -fan` (the list `["perfmode", "-fan"]`); likewise `-thermal`, `-led` and their short forms | report `InvalidArgv` like any other malformed command line | high; not executed | Parser.ParseArgsAsWritten, Parser.AsWrittenPanicsOnMissingWord | Parser.ParseArgs, Parser.CorrectedAgreesWithAsWritten |
