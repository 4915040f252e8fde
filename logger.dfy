/** The level choice in `logger::init` (knbackup/src/logger.rs). */
module Logger {
  import opened Wrappers
  import opened Text

  /** `log::LevelFilter`. */
  datatype LevelFilter = Off | Error | Warn | Info | Debug | Trace

  /** The name each level is selected by, in lower case. */
  function Name(l: LevelFilter): string {
    match l
    case Off => "off"
    case Error => "error"
    case Warn => "warn"
    case Info => "info"
    case Debug => "debug"
    case Trace => "trace"
  }

  /** The level for the value of `RUST_LOG` (None when it is unset): the named
      level when the lower-cased value is one of the six names, Info otherwise. */
  function LevelFor(rustLog: Option<string>): (l: LevelFilter)
    ensures rustLog.None? ==> l == Info
    ensures rustLog.Some? ==>
              ToLower(rustLog.value) == Name(l)
              || (l == Info && forall m: LevelFilter :: ToLower(rustLog.value) != Name(m))
  {
    match rustLog
    case None => Info
    case Some(v) =>
      match ToLower(v)
      case "off" => Off
      case "error" => Error
      case "warn" => Warn
      case "info" => Info
      case "debug" => Debug
      case "trace" => Trace
      case _ => Info
  }

  /** Each level is selected by its own name, and only by it: the six names
      are distinct, so the mapping from name to level is one-to-one. */
  lemma NamesSelect(l: LevelFilter, s: string)
    ensures LevelFor(Some(Name(l))) == l
    ensures l != Info ==> (LevelFor(Some(s)) == l <==> ToLower(s) == Name(l))
  {
    NameIsLower(l);
  }

  /** The six names are already lower case. */
  lemma NameIsLower(l: LevelFilter)
    ensures ToLower(Name(l)) == Name(l)
  {
    LowerFixed(Name(l));
  }

  /** Case does not matter: a value and its lower-cased form select the same level. */
  lemma {:induction false} IgnoresCase(s: string)
    ensures LevelFor(Some(s)) == LevelFor(Some(ToLower(s)))
  {
    ToLowerIdempotent(s);
  }

  /** Every value selects some level: anything that is not one of the six
      names, in any case, selects Info. */
  lemma UnknownIsInfo(s: string)
    requires forall l: LevelFilter :: ToLower(s) != Name(l)
    ensures LevelFor(Some(s)) == Info
  {
    assert ToLower(s) != Name(Off) && ToLower(s) != Name(Error) && ToLower(s) != Name(Warn);
    assert ToLower(s) != Name(Debug) && ToLower(s) != Name(Trace);
  }
}
