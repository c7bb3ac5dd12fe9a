/** The command model of perfmode: which subsystem a command targets (the
    operator), which state it asks for (the operation), and the flat error
    taxonomy the front end reports. */
module Command {

  /** The requested state within a subsystem, or the universal `Get` query. */
  datatype Operation =
    | Off | Min | Med | Max          // keyboard backlight levels
    | Silent | Balanced | Turbo      // fan boost modes
    | Overboost | Default            // thermal throttling policies
    | Get                            // read the current mode

  /** The subsystem a command targets; `Help` is the pseudo-subsystem. */
  datatype Operator = Led | Fan | Thermal | Help

  /** The error tags of the program; their message text is not modelled. */
  datatype Error = InvalidArgv | BadFp | NoPermission | InvalidArgFun | FileWriteError | Unknown

  /** Rust's `Result<T, Error>`. */
  datatype Result<T> = Ok(value: T) | Err(error: Error)

  /** Rust's `Option<T>`. */
  datatype Option<T> = None | Some(value: T)

  /** A parsed command: an operator paired with an operation. */
  type Cmd = (Operator, Operation)

  /** The operations each operator can be paired with on a command line. */
  function Operations(op: Operator): set<Operation>
  {
    match op
    case Led => {Off, Min, Med, Max, Get}
    case Fan => {Silent, Balanced, Turbo, Get}
    case Thermal => {Silent, Default, Overboost, Get}
    case Help => {Get}
  }

  /** A command whose operation belongs to its operator's vocabulary. */
  predicate Admissible(c: Cmd)
  {
    c.1 in Operations(c.0)
  }

  /** Every operator accepts the `Get` query, and only `Get` is shared by all four. */
  lemma GetIsUniversal(o: Operation)
    ensures (forall op: Operator :: o in Operations(op)) <==> o == Get
  {
    if o != Get {
      assert o !in Operations(Help);
    }
  }

  /** The fan and thermal vocabularies share exactly `Silent` and `Get`;
      the backlight shares only `Get` with either of them. */
  lemma SharedOperations()
    ensures Operations(Fan) * Operations(Thermal) == {Silent, Get}
    ensures Operations(Led) * Operations(Fan) == {Get}
    ensures Operations(Led) * Operations(Thermal) == {Get}
  {
  }
}
