# Difficulty.from_str — a Dafny model

deltadash reads `.dd` chart files for a rhythm game. A file is INI-like: two
key/value sections (`[Metadata]`, `[Difficulty]`) and two line-list sections
(`[HitObjects]`, whose lines are notes, and `[Events]`, whose lines are
`code,payload...` records). `Difficulty.from_str` turns the parsed sections
into one `Difficulty` record. This project models that function and proves
what it does:

- which field comes from which key;
- that `int` is applied to `PreviewPoint`, `BeatmapID` and `BeatmapsetID`;
- that every required key and section must be present, with no defaults,
  and which error the first failing read raises;
- that notes keep file order;
- that event lines are routed by the integer before their first comma: a
  line whose code is one of the three types the loop tests for goes to
  exactly one of three lists, each keeping file order, and a line whose code
  is any other valid `EventType` goes to none of them;
- that any failing line fails the whole parse, with the error of the first
  failing line.

Files (one module each):

- `wrappers.dfy` — `Option`, and `Result` usable with `:-`. A `Failure`
  stands for a raised Python exception.
- `integers.dfy` — Python's `int(text)` on decimal text (`ParseInt`), an
  independent front-to-back reading of its value (`DecimalValue`), and its
  reference partner `IntToString` (Python's `str(n)`).
- `input.dfy` — the parsed sections (`Sections`: `kv` for key/value
  sections, `lines` for line-list sections), the `Error` values, and the
  lookups `sections[s][k]`, `int(...)` and `float(...)`.
- `events.dfy` — the events loop. It is written twice:
  - `Partition`, a recursive function, is the specification;
  - `PartitionEvents`, a method with a `while` loop that appends to three
    sequences, is proved equal to it.

  Filters (`LinesOf`, `DroppedLines`) give an independent account of which
  line belongs where.
- `difficulty.dfy` — the `Difficulty` record, the notes comprehension
  (`DecodeNotes`), the whole parse as a function (`Parse`), the same parse as
  the source writes it (`FromStr`, which uses the loop method), and the
  lemmas about `Parse`.
- `read_errors.dfy` — the thirteen scalar reads as a table in source order
  (`ScalarReads`), and the exception raised by the first one that fails.

Code this model cannot see is taken as a parameter, each of which may fail:

- `Note.from_str`;
- `SpeedEvent.from_str`, `BPMEvent.from_str` and `FeverEvent.from_str`;
- the `EventType(code)` lookup;
- Python's `float`.

These parameters are bundled in `Codecs` / `EventCodecs`. The types they
produce are type parameters: `N` for a note, `S`, `B` and `F` for the three
event kinds, and `R` for a float.

Two behaviours of the code are easy to miss, and the model keeps both:

- `sections["Events"]` is read unconditionally
  (deltadash/maps/difficulty.py:81), like every other section, so parsed
  `sections` without an `Events` entry fail with a `KeyError`
  (`ParseRejectsMissingEvents`); the section is not optional. Whether a
  file without an `[Events]` header yields such `sections` is up to the INI
  parser, which is not part of this model.
- `EventType(int(code))` (deltadash/maps/difficulty.py:82) raises for an
  integer that is not an `EventType` member, which fails the whole parse
  (`UnknownEventType`, `PartitionFailsIff`). Only a code that is a valid
  member other than the three the loop tests for is skipped (`OtherType`,
  `DroppedLines`).

## Model

| member | source | states |
|---|---|---|
| Integers.ParseDigits | deltadash/maps/difficulty.py:56 | A run of text has a digit value exactly when it is non-empty and all ASCII digits; the value itself is stated by `ParseDigitsIsDecimalValue` |
| Integers.ParseInt | deltadash/maps/difficulty.py:56 | Within the text forms modelled (see `ParseInt` under "Left out"), `int(text)` succeeds exactly on an optional `+`/`-` followed by digits; a `-` gives a value ≤ 0 and no `-` gives a value ≥ 0; the value itself is stated by `ParseIntValue` |
| Integers.DecimalValueAppend | deltadash/maps/difficulty.py:56 | The front-to-back decimal value of a digit run followed by one more digit is ten times the run's value plus that digit |
| Integers.LeadingZeroIgnored | deltadash/maps/difficulty.py:56 | A leading `0` does not change a digit run's value, so `int("0500") == int("500")` |
| Integers.ParseDigitsIsDecimalValue | deltadash/maps/difficulty.py:56 | Every non-empty ASCII digit run reads as its decimal value, computed independently from the most significant digit, leading zeros included |
| Integers.ParseIntValue | deltadash/maps/difficulty.py:56 | For text `int` accepts, the result is the digits' decimal value, negated after `-` and unchanged after `+` or with no sign: `int("-007") == -7`, `int("+5") == 5` |
| Integers.ParseDigitsInvertsNatToString | deltadash/maps/difficulty.py:61-62 | Reading the decimal digits of any natural number gives that number back |
| Integers.ParseIntInvertsIntToString | deltadash/maps/difficulty.py:61-62 | `int(str(n)) == n` for every integer `n`, negative ones included, in a model without Python's limit on the number of decimal digits (see `ParseInt` under "Left out") |
| Events.FirstField | deltadash/maps/difficulty.py:82 | `line.split(",")[0]` is a prefix of the line with no comma; it is either the whole line or is followed by a comma |
| Events.FirstFieldOfRecord | deltadash/maps/difficulty.py:82 | For a `code,payload` line the leading field is exactly `code`, whatever the payload holds |
| Events.ClassifyReadsCodeOnly | deltadash/maps/difficulty.py:82 | A line's event type exists exactly when `int(code)` succeeds and `EventType` knows that value; the type is that lookup's result, independent of the payload |
| Events.PartitionEvents | deltadash/maps/difficulty.py:77-89 | The loop (three empty lists, one append per routed line, stopping at the first exception) returns exactly what the partition specification returns |
| Events.PartitionKeepsFirstFailure | deltadash/maps/difficulty.py:81-89 | Once the lines read so far fail, the whole loop fails with that same error; later lines cannot change the outcome |
| Events.PartitionFailsIff | deltadash/maps/difficulty.py:81-89 | The loop fails exactly when some line fails: its code does not parse, its code is not an `EventType`, or its decoder fails |
| Events.PartitionFailsAtFirstBadLine | deltadash/maps/difficulty.py:81-89 | A failing loop reports the error of a failing line before which every line succeeded, i.e. the first failing line |
| Events.PartitionContents | deltadash/maps/difficulty.py:81-89 | On success each of `speed`, `bpm` and `fever` has the length of the lines carrying its code, and element `i` is the decode of the `i`-th such line, so file order is kept |
| Events.ClassifiedLinesSplit | deltadash/maps/difficulty.py:84-89 | When every line has a type, the speed, BPM, fever and dropped lines together form, as a multiset, exactly the input lines |
| Events.PartitionRoutesEachLineOnce | deltadash/maps/difficulty.py:84-89 | On success every line goes to exactly one place (one of the three lists, or nowhere for another valid type), and list sizes plus dropped lines add up to the line count |
| Input.Value | deltadash/maps/difficulty.py:50-53 | `sections[section][key]`: the raw string, or `MissingSection` / `MissingKey` for the `KeyError`; its properties are stated by `ParseFields` and `ParseFailsAtFirstBadRead` |
| Input.IntValue | deltadash/maps/difficulty.py:56 | `int(sections[section][key])`: a missing item as in `Value`, else `ParseInt` of the text or `NotAnInteger` naming section, key and text; stated by `ParseFields` and `ParseFailsAtFirstBadRead` |
| Input.FloatValue | deltadash/maps/difficulty.py:65-67 | `float(sections[section][key])` with `float` as a parameter: a missing item as in `Value`, else its value or `NotAFloat` naming section, key and text; stated by `ParseFields` and `ParseFailsAtFirstBadRead` |
| Input.Lines | deltadash/maps/difficulty.py:73 | The record lines of a line-list section in file order, or `MissingSection`; stated by `ParseFailsOnMissingLines` and `ParseRejectsMissingEvents` |
| Events.Classify | deltadash/maps/difficulty.py:82 | `EventType(int(line.split(",")[0]))`: `BadEventCode` when the leading field is not an integer, `UnknownEventType` when `EventType` has no such member; stated by `ClassifyReadsCodeOnly` |
| Events.Dispatch | deltadash/maps/difficulty.py:82-89 | One loop iteration: classify, then decode with the class of that type (`BadEvent` if it fails), or skip the line for another valid type; stated through `PartitionFailsIff` and `PartitionRoutesEachLineOnce` |
| Events.Partition | deltadash/maps/difficulty.py:77-89 | The whole loop as a function on the lines; `PartitionEvents` is proved equal to it, and `PartitionContents`, `PartitionFailsIff`, `PartitionFailsAtFirstBadLine` and `PartitionRoutesEachLineOnce` state what it returns |
| Difficulties.DecodeNotes | deltadash/maps/difficulty.py:72-74 | The notes list succeeds exactly when every `HitObjects` line decodes; then it has one note per line in order; otherwise the error names the first line that fails |
| Difficulties.FromStr | deltadash/maps/difficulty.py:44-109 | The straight-line body, with the events loop as a method, returns exactly what the specification `Parse` returns, failures included |
| Difficulties.Scalars | deltadash/maps/difficulty.py:50-67 | The thirteen scalar reads in source order, the first failure ending them; stated by `ScalarsSucceedIff`, `ScalarsFields` and the `ReadErrors` lemmas |
| Difficulties.Parse | deltadash/maps/difficulty.py:44-109 | `from_str` after the INI parser: scalars, notes, then events, returning the first failure; `FromStr` is proved equal to it, and the lemmas below state what it returns |
| Difficulties.ScalarsSucceedIff | deltadash/maps/difficulty.py:50-67 | The thirteen scalar reads succeed exactly when every key and section they read is present, the three integer texts parse and the three float texts convert |
| Difficulties.ScalarsFields | deltadash/maps/difficulty.py:50-67 | After the scalar reads, each string field is the raw value of its key, each integer field is `int` of its key, and each float is `float` of its key |
| Difficulties.ParseSucceedsIff | deltadash/maps/difficulty.py:50-89 | `from_str` succeeds exactly when all thirteen scalar fields read and convert, both line sections exist, every note decodes and every event line is typed and decoded |
| Difficulties.ParseFailsOnMissingField | deltadash/maps/difficulty.py:50-67 | A missing `Metadata` or `Difficulty` section, or any one of the ten metadata keys or three settings keys missing, always fails: nothing is defaulted |
| Difficulties.ParseFailsOnMissingLines | deltadash/maps/difficulty.py:72-81 | A missing `HitObjects` or `Events` section always fails |
| Difficulties.ParseFields | deltadash/maps/difficulty.py:50-67 | On success `artist`, `title`, `name`, `mapper` and the three paths are the raw strings of `Artist`, `Title`, `DiffName`, `Mapper`, `Background`, `Thumbnail` and `Audio`; `preview_ms`, `id` and `set_id` are `int` of their texts; the settings are `float` of theirs |
| Difficulties.ParseContents | deltadash/maps/difficulty.py:72-89 | On success `notes` are the `HitObjects` lines decoded in order, and each event list holds the decodes of the lines carrying its code, in order |
| ReadErrors.ScalarReadsCoverKeys | deltadash/maps/difficulty.py:50-67 | The table of reads lists the ten `Metadata` keys then the three `Difficulty` keys, in source order, the same keys `ParseFailsOnMissingField` ranges over |
| ReadErrors.AllReadsGiveScalarsReadable | deltadash/maps/difficulty.py:50-67 | Every read of the table succeeding means every scalar field is present and converts |
| ReadErrors.ScalarsReadableGivesAllReads | deltadash/maps/difficulty.py:50-67 | Every scalar field present and converting means each read of the table succeeds |
| ReadErrors.ScalarsReadableIffAllReads | deltadash/maps/difficulty.py:50-67 | The success condition of the scalar reads is exactly "every read of the table succeeds", so the success and first-failure lemmas are about the same reads |
| ReadErrors.SongMetadataReadFails | deltadash/maps/difficulty.py:50-53 | When one of `Artist`, `Title`, `DiffName`, `Mapper` is the first read that fails, the scalar reads fail with that read's `MissingSection` or `MissingKey` |
| ReadErrors.MapMetadataReadFails | deltadash/maps/difficulty.py:56-59 | When `PreviewPoint`, `Background`, `Thumbnail` or `Audio` is the first read that fails, the scalar reads fail with that read's error, `NotAnInteger` with its text for a `PreviewPoint` that does not convert |
| ReadErrors.MapIdReadFails | deltadash/maps/difficulty.py:61-62 | When `BeatmapID` or `BeatmapsetID` is the first read that fails, the scalar reads fail with its missing item or `NotAnInteger` with its text |
| ReadErrors.SettingsReadFails | deltadash/maps/difficulty.py:65-67 | When `Speed`, `Health` or `Sensitivity` is the first read that fails, the scalar reads fail with its missing item or `NotAFloat` with its text |
| ReadErrors.ParseFailsAtFirstBadRead | deltadash/maps/difficulty.py:50-67 | For each of the thirteen reads in source order: if every earlier read succeeds and this one does not, `from_str` fails with exactly this read's error: `MissingSection(section)`, `MissingKey(section, key)`, or `NotAnInteger` / `NotAFloat` with the text |
| Difficulties.ParseRejectsMissingEvents | deltadash/maps/difficulty.py:81 | Parsed `sections` whose scalar fields and notes all read but that have no `Events` entry fail with exactly `MissingSection("Events")` |

## Left out

- `Difficulty.from_file` (deltadash/maps/difficulty.py:111-119): it only
  opens a file and reads it, which is I/O.
- The INI parser `parser.ini.parse` is not part of this model. Its output is
  the model's input (`Sections`). Its treatment of lines is therefore not
  modelled: blank lines, comments, trimming, and duplicate lines merged as
  dictionary keys.
- `Note.from_str`, `SpeedEvent.from_str`, `BPMEvent.from_str`,
  `FeverEvent.from_str` and the numeric values of `EventType` are not part of
  this model. Each is a parameter that may fail, and nothing is claimed about
  their line grammars.
- Python `float` parsing is floating point. It is a parameter
  `string -> Option<R>`, and only its success or failure and its value are
  used.
- ParseInt: whitespace around the digits, `_` digit separators and non-ASCII
  Unicode digits are not accepted, although Python's `int` accepts them.
  Python's default limit on decimal conversion (4300 digits, from CPython
  3.11 and the 3.7.14, 3.8.14, 3.9.14 and 3.10.7 security releases) is not
  modelled either: there a longer digit run makes `int(text)` raise
  `ValueError`, while `ParseInt` accepts digit runs of any length.
- ParseIntInvertsIntToString: holds for every integer here. In Python,
  `str(n)` and `int` raise for integers with more decimal digits than the
  limit above.
- Error values: they say which section, key or line failed. Python raises a
  `KeyError` or `ValueError`; its message is not modelled.
- Writing a chart back (`into_file`) and the derived `full_name` are not
  defined in deltadash/maps/difficulty.py, so no writer or round trip through
  text is modelled. examples/map_rw.py, which reads, prints and writes a
  file, is out for the same reason.
- Whole-field reassignment of the mutable record (`diff.name = ...`) is, in
  this model, a datatype update `d.(name := ...)`. Aliasing between holders of
  the same Python object is not modelled.
