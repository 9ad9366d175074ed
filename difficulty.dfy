/** `Difficulty` and `Difficulty.from_str`: the typed extraction of a parsed
    `.dd` file into one chart.

    The note class, the event classes and Python's `float` are not part of
    this model; they are parameters (`Codecs`), and their result types are
    the type parameters `N` (Note), `S`, `B`, `F` (the three event classes)
    and `R` (float). */
module Difficulties {
  import opened Wrappers
  import opened Integers
  import opened Input
  import opened Events

  datatype Difficulty<N, S, B, F, R> = Difficulty(
    // Song metadata
    artist: string,
    title: string,
    name: string,
    mapper: string,
    // Map metadata
    previewMs: int,
    backgroundPath: string,
    thumbnailPath: string,
    audioPath: string,
    id: int,
    setId: int,
    // Difficulty settings
    speed: R,
    health: R,
    sensitivity: R,
    // Contents
    notes: seq<N>,
    speedEvents: seq<S>,
    bpmEvents: seq<B>,
    feverEvents: seq<F>)

  datatype Codecs<N, S, B, F, R> = Codecs(
    parseFloat: string -> Option<R>,   // float(text)
    note: string -> Option<N>,         // Note.from_str
    events: EventCodecs<S, B, F>)

  /** The keys read from each key/value section; none has a default. */
  const MetadataKeys: seq<string> :=
    ["Artist", "Title", "DiffName", "Mapper", "PreviewPoint", "Background", "Thumbnail", "Audio", "BeatmapID", "BeatmapsetID"]
  const DifficultyKeys: seq<string> := ["Speed", "Health", "Sensitivity"]

  /** `[Note.from_str(note) for note in lines]`: all notes in file order, or
      the error of the first line that does not decode. */
  function DecodeNotes<N>(decode: string -> Option<N>, lines: seq<string>): (r: Result<seq<N>, Error>)
    ensures r.Success? <==> forall i :: 0 <= i < |lines| ==> decode(lines[i]).Some?
    ensures r.Success? ==> DecodedInOrder(decode, lines, r.value)
    ensures r.Failure? ==>
      exists i :: 0 <= i < |lines| && decode(lines[i]).None? && r.error == BadNote(lines[i])
        && forall j :: 0 <= j < i ==> decode(lines[j]).Some?
    decreases |lines|
  {
    if lines == [] then Success([])
    else
      match decode(lines[0])
      case None => Failure(BadNote(lines[0]))
      case Some(n) =>
        var rest :- DecodeNotes(decode, lines[1..]);
        Success([n] + rest)
  }

  /** The scalar fields of `from_str` (its first thirteen reads), in the
      order the source reads them; the contents are left empty. */
  function Scalars<N, S, B, F, R>(c: Codecs<N, S, B, F, R>, secs: Sections): Result<Difficulty<N, S, B, F, R>, Error> {
    var artist :- Value(secs, "Metadata", "Artist");
    var title :- Value(secs, "Metadata", "Title");
    var name :- Value(secs, "Metadata", "DiffName");
    var mapper :- Value(secs, "Metadata", "Mapper");
    var previewMs :- IntValue(secs, "Metadata", "PreviewPoint");
    var backgroundPath :- Value(secs, "Metadata", "Background");
    var thumbnailPath :- Value(secs, "Metadata", "Thumbnail");
    var audioPath :- Value(secs, "Metadata", "Audio");
    var id :- IntValue(secs, "Metadata", "BeatmapID");
    var setId :- IntValue(secs, "Metadata", "BeatmapsetID");
    var speed :- FloatValue(c.parseFloat, secs, "Difficulty", "Speed");
    var health :- FloatValue(c.parseFloat, secs, "Difficulty", "Health");
    var sensitivity :- FloatValue(c.parseFloat, secs, "Difficulty", "Sensitivity");
    Success(Difficulty(artist, title, name, mapper, previewMs, backgroundPath, thumbnailPath, audioPath,
                       id, setId, speed, health, sensitivity, [], [], [], []))
  }

  /** `Difficulty.from_str` after the INI parser, as a function: the scalar
      fields, then the notes, then the events, the first failure ending the
      parse. */
  function Parse<N, S, B, F, R>(c: Codecs<N, S, B, F, R>, secs: Sections): Result<Difficulty<N, S, B, F, R>, Error> {
    var d :- Scalars(c, secs);
    var hitObjects :- Lines(secs, "HitObjects");
    var notes :- DecodeNotes(c.note, hitObjects);
    var eventLines :- Lines(secs, "Events");
    var events :- Partition(c.events, eventLines);
    Success(d.(notes := notes, speedEvents := events.speed, bpmEvents := events.bpm, feverEvents := events.fever))
  }

  /** `Difficulty.from_str` as the source writes it: straight-line field
      reads, the notes comprehension, then the events loop. */
  method FromStr<N, S, B, F, R>(c: Codecs<N, S, B, F, R>, sections: Sections)
    returns (r: Result<Difficulty<N, S, B, F, R>, Error>)
    ensures r == Parse(c, sections)
  {
    var artist :- Value(sections, "Metadata", "Artist");
    var title :- Value(sections, "Metadata", "Title");
    var name :- Value(sections, "Metadata", "DiffName");
    var mapper :- Value(sections, "Metadata", "Mapper");
    var previewMs :- IntValue(sections, "Metadata", "PreviewPoint");
    var backgroundPath :- Value(sections, "Metadata", "Background");
    var thumbnailPath :- Value(sections, "Metadata", "Thumbnail");
    var audioPath :- Value(sections, "Metadata", "Audio");
    var id :- IntValue(sections, "Metadata", "BeatmapID");
    var setId :- IntValue(sections, "Metadata", "BeatmapsetID");
    var speed :- FloatValue(c.parseFloat, sections, "Difficulty", "Speed");
    var health :- FloatValue(c.parseFloat, sections, "Difficulty", "Health");
    var sensitivity :- FloatValue(c.parseFloat, sections, "Difficulty", "Sensitivity");
    var hitObjects :- Lines(sections, "HitObjects");
    var notes :- DecodeNotes(c.note, hitObjects);
    var eventLines :- Lines(sections, "Events");
    var events :- PartitionEvents(c.events, eventLines);
    return Success(Difficulty(artist, title, name, mapper, previewMs, backgroundPath, thumbnailPath, audioPath,
                              id, setId, speed, health, sensitivity, notes, events.speed, events.bpm, events.fever));
  }

  // ---------------------------------------------------------------------
  // What a successful parse requires and what it yields

  /** `sections[section][key]` exists. */
  ghost predicate HasText(secs: Sections, section: string, key: string) {
    section in secs.kv && key in secs.kv[section]
  }

  /** `int(sections[section][key])` succeeds. */
  ghost predicate HasInteger(secs: Sections, section: string, key: string) {
    HasText(secs, section, key) && IsIntegerText(secs.kv[section][key])
  }

  /** `float(sections[section][key])` succeeds. */
  ghost predicate HasFloat<R>(parseFloat: string -> Option<R>, secs: Sections, section: string, key: string) {
    HasText(secs, section, key) && parseFloat(secs.kv[section][key]).Some?
  }

  /** Every scalar field is present and converts. */
  ghost predicate ScalarsReadable<N, S, B, F, R>(c: Codecs<N, S, B, F, R>, secs: Sections) {
    && HasText(secs, "Metadata", "Artist")
    && HasText(secs, "Metadata", "Title")
    && HasText(secs, "Metadata", "DiffName")
    && HasText(secs, "Metadata", "Mapper")
    && HasInteger(secs, "Metadata", "PreviewPoint")
    && HasText(secs, "Metadata", "Background")
    && HasText(secs, "Metadata", "Thumbnail")
    && HasText(secs, "Metadata", "Audio")
    && HasInteger(secs, "Metadata", "BeatmapID")
    && HasInteger(secs, "Metadata", "BeatmapsetID")
    && HasFloat(c.parseFloat, secs, "Difficulty", "Speed")
    && HasFloat(c.parseFloat, secs, "Difficulty", "Health")
    && HasFloat(c.parseFloat, secs, "Difficulty", "Sensitivity")
  }

  /** Everything `from_str` needs of its input, stated per field and per line. */
  ghost predicate Accepts<N, S, B, F, R>(c: Codecs<N, S, B, F, R>, secs: Sections) {
    && ScalarsReadable(c, secs)
    && "HitObjects" in secs.lines
    && (forall i :: 0 <= i < |secs.lines["HitObjects"]| ==> c.note(secs.lines["HitObjects"][i]).Some?)
    && "Events" in secs.lines
    && (forall i :: 0 <= i < |secs.lines["Events"]| ==> Dispatch(c.events, secs.lines["Events"][i]).Success?)
  }

  /** The scalar fields of `d` are the raw strings of their keys, or what
      `int` and `float` make of them. */
  ghost predicate ScalarsFrom<N, S, B, F, R>(c: Codecs<N, S, B, F, R>, secs: Sections, d: Difficulty<N, S, B, F, R>) {
    ScalarsReadable(c, secs) &&
    var meta, diff := secs.kv["Metadata"], secs.kv["Difficulty"];
    && d.artist == meta["Artist"] && d.title == meta["Title"] && d.name == meta["DiffName"]
    && d.mapper == meta["Mapper"] && d.backgroundPath == meta["Background"]
    && d.thumbnailPath == meta["Thumbnail"] && d.audioPath == meta["Audio"]
    && ParseInt(meta["PreviewPoint"]) == Some(d.previewMs)
    && ParseInt(meta["BeatmapID"]) == Some(d.id)
    && ParseInt(meta["BeatmapsetID"]) == Some(d.setId)
    && c.parseFloat(diff["Speed"]) == Some(d.speed)
    && c.parseFloat(diff["Health"]) == Some(d.health)
    && c.parseFloat(diff["Sensitivity"]) == Some(d.sensitivity)
  }

  lemma ScalarsSucceedIff<N, S, B, F, R>(c: Codecs<N, S, B, F, R>, secs: Sections)
    ensures Scalars(c, secs).Success? <==> ScalarsReadable(c, secs)
  {
  }

  lemma ScalarsFields<N, S, B, F, R>(c: Codecs<N, S, B, F, R>, secs: Sections)
    requires Scalars(c, secs).Success?
    ensures ScalarsFrom(c, secs, Scalars(c, secs).value)
  {
    ScalarsSucceedIff(c, secs);
  }

  /** The parse succeeds exactly when every required key and section is
      present, every integer and float field converts, every note decodes
      and every event line is classified and decoded. */
  lemma ParseSucceedsIff<N, S, B, F, R>(c: Codecs<N, S, B, F, R>, secs: Sections)
    ensures Parse(c, secs).Success? <==> Accepts(c, secs)
  {
    ScalarsSucceedIff(c, secs);
    if "Events" in secs.lines {
      PartitionFailsIff(c.events, secs.lines["Events"]);
    }
  }

  /** No field has a default: a missing section or a missing required key
      always fails the parse. */
  lemma ParseFailsOnMissingField<N, S, B, F, R>(c: Codecs<N, S, B, F, R>, secs: Sections, section: string, key: string)
    requires (section == "Metadata" && key in MetadataKeys) || (section == "Difficulty" && key in DifficultyKeys)
    requires section !in secs.kv || key !in secs.kv[section]
    ensures Parse(c, secs).Failure?
  {
    ParseSucceedsIff(c, secs);
  }

  /** A missing line-list section fails the parse too. */
  lemma ParseFailsOnMissingLines<N, S, B, F, R>(c: Codecs<N, S, B, F, R>, secs: Sections)
    requires "HitObjects" !in secs.lines || "Events" !in secs.lines
    ensures Parse(c, secs).Failure?
  {
    ParseSucceedsIff(c, secs);
  }

  /** On success the string fields are the raw values, the integer fields
      read back from their text, the floats come from `float`. */
  lemma ParseFields<N, S, B, F, R>(c: Codecs<N, S, B, F, R>, secs: Sections)
    requires Parse(c, secs).Success?
    ensures ScalarsFrom(c, secs, Parse(c, secs).value)
  {
    ScalarsFields(c, secs);
  }

  /** On success the notes are the `HitObjects` lines decoded in order and
      each event list is the decode of the lines carrying its code, in order. */
  lemma ParseContents<N, S, B, F, R>(c: Codecs<N, S, B, F, R>, secs: Sections)
    requires Parse(c, secs).Success?
    ensures var d := Parse(c, secs).value;
      && DecodedInOrder(c.note, secs.lines["HitObjects"], d.notes)
      && DecodedInOrder(c.events.speedEvent, LinesOf(c.events, secs.lines["Events"], SpeedChange), d.speedEvents)
      && DecodedInOrder(c.events.bpmEvent, LinesOf(c.events, secs.lines["Events"], BpmChange), d.bpmEvents)
      && DecodedInOrder(c.events.feverEvent, LinesOf(c.events, secs.lines["Events"], FeverToggle), d.feverEvents)
  {
    PartitionContents(c.events, secs.lines["Events"]);
  }

  /** Parsed sections without an `Events` entry are rejected even when
      everything else reads: the section is looked up like any other. */
  lemma ParseRejectsMissingEvents<N, S, B, F, R>(c: Codecs<N, S, B, F, R>, secs: Sections)
    requires ScalarsReadable(c, secs)
    requires "HitObjects" in secs.lines && forall line :: line in secs.lines["HitObjects"] ==> c.note(line).Some?
    requires "Events" !in secs.lines
    ensures Parse(c, secs) == Failure(MissingSection("Events"))
  {
    ScalarsSucceedIff(c, secs);
    var lines := secs.lines["HitObjects"];
    assert forall i :: 0 <= i < |lines| ==> c.note(lines[i]).Some? by {
      forall i | 0 <= i < |lines| ensures c.note(lines[i]).Some? {
        assert lines[i] in lines;
      }
    }
  }
}
