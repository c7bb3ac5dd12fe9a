/** The command-line grammar of perfmode stated as data: which flags select
    which operator, and which words name which operation for each operator.
    The parser is checked against this description. */
module Grammar {
  import opened Command

  /** One accepted operation word and the operation it names. */
  datatype Word = Word(token: string, operation: Operation)

  /** The flags that select each operator as the first token. */
  function Flags(op: Operator): set<string>
  {
    match op
    case Help => {"-help", "-h"}
    case Fan => {"-fan", "-f"}
    case Thermal => {"-thermal", "-t"}
    case Led => {"-led", "-l"}
  }

  /** The long form of each operator's flag, as the usage text spells it. */
  function LongFlag(op: Operator): (f: string)
    ensures f in Flags(op)
  {
    match op
    case Help => "-help"
    case Fan => "-fan"
    case Thermal => "-thermal"
    case Led => "-led"
  }

  /** Every flag the first token may be. */
  function AllFlags(): set<string>
  {
    Flags(Help) + Flags(Fan) + Flags(Thermal) + Flags(Led)
  }

  /** The operation words of the fan sub-parser, long forms before aliases. */
  const FanWords: seq<Word> :=
    [Word("silent", Silent), Word("s", Silent),
     Word("balanced", Balanced), Word("b", Balanced),
     Word("turbo", Turbo), Word("t", Turbo),
     Word("get", Get), Word("g", Get)]

  /** The operation words of the thermal sub-parser. */
  const ThermalWords: seq<Word> :=
    [Word("silent", Silent), Word("s", Silent),
     Word("default", Default), Word("df", Default),
     Word("overboost", Overboost), Word("ob", Overboost),
     Word("get", Get), Word("g", Get)]

  /** The operation words of the backlight sub-parser: the levels have no
      short forms, only `get` does. */
  const LedWords: seq<Word> :=
    [Word("off", Off), Word("min", Min), Word("med", Med), Word("max", Max),
     Word("get", Get), Word("g", Get)]

  /** The operation words of each operator; help takes none. */
  function Words(op: Operator): seq<Word>
  {
    match op
    case Fan => FanWords
    case Thermal => ThermalWords
    case Led => LedWords
    case Help => []
  }

  /** The operation the first word of `table` spelled `tok` names, if any. */
  function Lookup(table: seq<Word>, tok: string): (r: Option<Operation>)
    ensures r.Some? <==> exists i :: 0 <= i < |table| && table[i].token == tok
    ensures r.Some? ==> exists i :: 0 <= i < |table| && table[i] == Word(tok, r.value)
  {
    if |table| == 0 then None
    else if table[0].token == tok then Some(table[0].operation)
    else Lookup(table[1..], tok)
  }

  /** The relational reading of the grammar: `args` denotes command `c`.
      A list without a first token, or whose first token is a help flag,
      denotes the help command; otherwise the first token is the operator's
      flag and the second one of its words. Later tokens do not matter. */
  ghost predicate Denotes(args: seq<string>, c: Cmd)
  {
    if |args| < 2 || args[1] in Flags(Help) then c == (Help, Get)
    else
      && c.0 != Help
      && args[1] in Flags(c.0)
      && |args| >= 3
      && Lookup(Words(c.0), args[2]) == Some(c.1)
  }

  /** What the operation word `tok` means after the flag of `op`. */
  function Interpret(op: Operator, tok: string): (r: Result<Cmd>)
    ensures r.Ok? <==> exists i :: 0 <= i < |Words(op)| && Words(op)[i].token == tok
    ensures r.Ok? ==> r.value.0 == op
    ensures r.Ok? ==> exists i :: 0 <= i < |Words(op)| && Words(op)[i] == Word(tok, r.value.1)
    ensures r.Err? ==> r.error == InvalidArgv
  {
    match Lookup(Words(op), tok)
    case Some(o) => Ok((op, o))
    case None => Err(InvalidArgv)
  }

  /** The long form of each operation word, as the usage text spells it. */
  function Spelling(o: Operation): string
  {
    match o
    case Off => "off" case Min => "min" case Med => "med" case Max => "max"
    case Silent => "silent" case Balanced => "balanced" case Turbo => "turbo"
    case Overboost => "overboost" case Default => "default" case Get => "get"
  }

  /** Every word of an operator names an operation the operator admits. */
  lemma WordsWithinOperations(op: Operator, i: int)
    requires 0 <= i < |Words(op)|
    ensures Words(op)[i].operation in Operations(op)
  {
  }

  /** Where an operator's table lists the long form of an operation it
      admits: every such operation has a word. */
  function LongFormIndex(op: Operator, o: Operation): (i: nat)
    requires op != Help && o in Operations(op)
    ensures i < |Words(op)| && Words(op)[i] == Word(Spelling(o), o)
  {
    match o
    case Silent | Off => 0
    case Min => 1
    case Balanced | Default | Med => 2
    case Max => 3
    case Turbo | Overboost => 4
    case Get => if op == Led then 4 else 6
  }

  /** The flag sets of different operators are disjoint. */
  lemma FlagsDisjoint(a: Operator, b: Operator)
    requires a != b
    ensures Flags(a) !! Flags(b)
  {
  }
}
