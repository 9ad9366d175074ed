/** What `Difficulty.from_str` reads and how it fails.

    The INI parser hands `from_str` one dictionary per section. `Metadata`
    and `Difficulty` are read as key/value tables (`kv`); `HitObjects` and
    `Events` are iterated, which yields their keys, the raw record lines, in
    insertion order (`lines`). Every failing access or conversion in the
    Python raises an exception; here it is an `Error` value. */
module Input {
  import opened Wrappers
  import opened Integers

  datatype Sections = Sections(
    kv: map<string, map<string, string>>,
    lines: map<string, seq<string>>)

  datatype Error =
    | MissingSection(section: string)                     // KeyError on sections[section]
    | MissingKey(section: string, key: string)            // KeyError on sections[section][key]
    | NotAnInteger(section: string, key: string, text: string)  // ValueError from int()
    | NotAFloat(section: string, key: string, text: string)     // ValueError from float()
    | BadNote(line: string)                               // Note.from_str failed
    | BadEventCode(line: string)                          // int() of the leading field failed
    | UnknownEventType(line: string, code: int)           // EventType(code) failed
    | BadEvent(line: string)                              // an event decoder failed

  /** `sections[section][key]`, the raw string, unchanged. */
  function Value(secs: Sections, section: string, key: string): Result<string, Error> {
    if section !in secs.kv then Failure(MissingSection(section))
    else if key !in secs.kv[section] then Failure(MissingKey(section, key))
    else Success(secs.kv[section][key])
  }

  /** `int(sections[section][key])`. */
  function IntValue(secs: Sections, section: string, key: string): Result<int, Error> {
    var text :- Value(secs, section, key);
    match ParseInt(text)
    case None => Failure(NotAnInteger(section, key, text))
    case Some(n) => Success(n)
  }

  /** `float(sections[section][key])`, with `float` given as `parseFloat`. */
  function FloatValue<R>(parseFloat: string -> Option<R>, secs: Sections, section: string, key: string): Result<R, Error> {
    var text :- Value(secs, section, key);
    match parseFloat(text)
    case None => Failure(NotAFloat(section, key, text))
    case Some(x) => Success(x)
  }

  /** The record lines of a line-list section, in file order. */
  function Lines(secs: Sections, section: string): Result<seq<string>, Error> {
    if section in secs.lines then Success(secs.lines[section]) else Failure(MissingSection(section))
  }

  /** `out` is `src` decoded line by line: same length, same order. */
  ghost predicate DecodedInOrder<T>(decode: string -> Option<T>, src: seq<string>, out: seq<T>) {
    |out| == |src| && forall i :: 0 <= i < |src| ==> decode(src[i]) == Some(out[i])
  }
}
