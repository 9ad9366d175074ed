/** Which exception `Difficulty.from_str` raises when a scalar field cannot
    be read: the thirteen reads happen in a fixed order, and the first one
    that fails decides the error. */
module ReadErrors {
  import opened Wrappers
  import opened Integers
  import opened Input
  import opened Difficulties

  /** How `from_str` turns a scalar field's text into its value. */
  datatype Conversion = AsText | AsInt | AsFloat

  /** One scalar read: `conv(sections[section][key])`. */
  datatype Read = Read(section: string, key: string, conv: Conversion)

  /** The thirteen scalar reads, in the order `from_str` performs them. */
  const ScalarReads: seq<Read> := [
    Read("Metadata", "Artist", AsText), Read("Metadata", "Title", AsText),
    Read("Metadata", "DiffName", AsText), Read("Metadata", "Mapper", AsText),
    Read("Metadata", "PreviewPoint", AsInt), Read("Metadata", "Background", AsText),
    Read("Metadata", "Thumbnail", AsText), Read("Metadata", "Audio", AsText),
    Read("Metadata", "BeatmapID", AsInt), Read("Metadata", "BeatmapsetID", AsInt),
    Read("Difficulty", "Speed", AsFloat), Read("Difficulty", "Health", AsFloat),
    Read("Difficulty", "Sensitivity", AsFloat)]

  /** The read finds its section and key and its conversion succeeds. */
  ghost predicate ReadSucceeds<N, S, B, F, R>(c: Codecs<N, S, B, F, R>, secs: Sections, rd: Read) {
    && HasText(secs, rd.section, rd.key)
    && (rd.conv == AsInt ==> IsIntegerText(secs.kv[rd.section][rd.key]))
    && (rd.conv == AsFloat ==> c.parseFloat(secs.kv[rd.section][rd.key]).Some?)
  }

  /** The exception a failing read raises: a `KeyError` for the section or the
      key, else the `ValueError` of its conversion, naming the text. */
  ghost function ReadError(secs: Sections, rd: Read): Error {
    if rd.section !in secs.kv then MissingSection(rd.section)
    else if rd.key !in secs.kv[rd.section] then MissingKey(rd.section, rd.key)
    else if rd.conv == AsInt then NotAnInteger(rd.section, rd.key, secs.kv[rd.section][rd.key])
    else NotAFloat(rd.section, rd.key, secs.kv[rd.section][rd.key])
  }

  /** The table lists the same keys, in the same order, as `MetadataKeys` and `DifficultyKeys`. */
  lemma ScalarReadsCoverKeys()
    ensures forall k :: 0 <= k < |MetadataKeys| ==> ScalarReads[k].section == "Metadata" && ScalarReads[k].key == MetadataKeys[k]
    ensures forall k :: 0 <= k < |DifficultyKeys| ==>
      ScalarReads[|MetadataKeys| + k].section == "Difficulty" && ScalarReads[|MetadataKeys| + k].key == DifficultyKeys[k]
    ensures |ScalarReads| == |MetadataKeys| + |DifficultyKeys|
  {
  }

  /** Every read of the table succeeding gives `ScalarsReadable`. */
  lemma AllReadsGiveScalarsReadable<N, S, B, F, R>(c: Codecs<N, S, B, F, R>, secs: Sections)
    requires forall k :: 0 <= k < |ScalarReads| ==> ReadSucceeds(c, secs, ScalarReads[k])
    ensures ScalarsReadable(c, secs)
  {
    assert ReadSucceeds(c, secs, ScalarReads[0]);
    assert ReadSucceeds(c, secs, ScalarReads[1]);
    assert ReadSucceeds(c, secs, ScalarReads[2]);
    assert ReadSucceeds(c, secs, ScalarReads[3]);
    assert ReadSucceeds(c, secs, ScalarReads[4]);
    assert ReadSucceeds(c, secs, ScalarReads[5]);
    assert ReadSucceeds(c, secs, ScalarReads[6]);
    assert ReadSucceeds(c, secs, ScalarReads[7]);
    assert ReadSucceeds(c, secs, ScalarReads[8]);
    assert ReadSucceeds(c, secs, ScalarReads[9]);
    assert ReadSucceeds(c, secs, ScalarReads[10]);
    assert ReadSucceeds(c, secs, ScalarReads[11]);
    assert ReadSucceeds(c, secs, ScalarReads[12]);
  }

  /** `ScalarsReadable` gives every read of the table. */
  lemma ScalarsReadableGivesAllReads<N, S, B, F, R>(c: Codecs<N, S, B, F, R>, secs: Sections, k: nat)
    requires ScalarsReadable(c, secs)
    requires k < |ScalarReads|
    ensures ReadSucceeds(c, secs, ScalarReads[k])
  {
  }

  /** `ScalarsReadable`, which the success lemmas use, says exactly that every
      read of the table succeeds. */
  lemma ScalarsReadableIffAllReads<N, S, B, F, R>(c: Codecs<N, S, B, F, R>, secs: Sections)
    ensures ScalarsReadable(c, secs) <==> forall k :: 0 <= k < |ScalarReads| ==> ReadSucceeds(c, secs, ScalarReads[k])
  {
    if ScalarsReadable(c, secs) {
      forall k | 0 <= k < |ScalarReads| ensures ReadSucceeds(c, secs, ScalarReads[k]) {
        ScalarsReadableGivesAllReads(c, secs, k);
      }
    }
    if forall k :: 0 <= k < |ScalarReads| ==> ReadSucceeds(c, secs, ScalarReads[k]) {
      AllReadsGiveScalarsReadable(c, secs);
    }
  }

  /** A failing song-metadata read (artist, title, name, mapper) ends the scalar reads with its own error. */
  lemma SongMetadataReadFails<N, S, B, F, R>(c: Codecs<N, S, B, F, R>, secs: Sections, k: nat)
    requires k < 4
    requires forall j :: 0 <= j < k ==> ReadSucceeds(c, secs, ScalarReads[j])
    requires !ReadSucceeds(c, secs, ScalarReads[k])
    ensures Scalars(c, secs) == Failure(ReadError(secs, ScalarReads[k]))
  {
    if k == 1 {
      assert ReadSucceeds(c, secs, ScalarReads[0]);
    } else if k == 2 {
      assert ReadSucceeds(c, secs, ScalarReads[0]);
      assert ReadSucceeds(c, secs, ScalarReads[1]);
    } else if k == 3 {
      assert ReadSucceeds(c, secs, ScalarReads[0]);
      assert ReadSucceeds(c, secs, ScalarReads[1]);
      assert ReadSucceeds(c, secs, ScalarReads[2]);
    }
  }

  /** A failing map-metadata read (preview point, background, thumbnail, audio), after the song metadata read, ends the scalar reads with its own error. */
  lemma MapMetadataReadFails<N, S, B, F, R>(c: Codecs<N, S, B, F, R>, secs: Sections, k: nat)
    requires 4 <= k < 8
    requires forall j :: 0 <= j < k ==> ReadSucceeds(c, secs, ScalarReads[j])
    requires !ReadSucceeds(c, secs, ScalarReads[k])
    ensures Scalars(c, secs) == Failure(ReadError(secs, ScalarReads[k]))
  {
    assert ReadSucceeds(c, secs, ScalarReads[0]);
    assert ReadSucceeds(c, secs, ScalarReads[1]);
    assert ReadSucceeds(c, secs, ScalarReads[2]);
    assert ReadSucceeds(c, secs, ScalarReads[3]);
    if k == 5 {
      assert ReadSucceeds(c, secs, ScalarReads[4]);
    } else if k == 6 {
      assert ReadSucceeds(c, secs, ScalarReads[4]);
      assert ReadSucceeds(c, secs, ScalarReads[5]);
    } else if k == 7 {
      assert ReadSucceeds(c, secs, ScalarReads[4]);
      assert ReadSucceeds(c, secs, ScalarReads[5]);
      assert ReadSucceeds(c, secs, ScalarReads[6]);
    }
  }

  /** A failing map-id read (`BeatmapID`, `BeatmapsetID`), after the reads before it succeeded, ends the scalar reads with its own error. */
  lemma MapIdReadFails<N, S, B, F, R>(c: Codecs<N, S, B, F, R>, secs: Sections, k: nat)
    requires 8 <= k < 10
    requires forall j :: 0 <= j < k ==> ReadSucceeds(c, secs, ScalarReads[j])
    requires !ReadSucceeds(c, secs, ScalarReads[k])
    ensures Scalars(c, secs) == Failure(ReadError(secs, ScalarReads[k]))
  {
    assert ReadSucceeds(c, secs, ScalarReads[0]);
    assert ReadSucceeds(c, secs, ScalarReads[1]);
    assert ReadSucceeds(c, secs, ScalarReads[2]);
    assert ReadSucceeds(c, secs, ScalarReads[3]);
    assert ReadSucceeds(c, secs, ScalarReads[4]);
    assert ReadSucceeds(c, secs, ScalarReads[5]);
    assert ReadSucceeds(c, secs, ScalarReads[6]);
    assert ReadSucceeds(c, secs, ScalarReads[7]);
    if k == 9 {
      assert ReadSucceeds(c, secs, ScalarReads[8]);
    }
  }

  /** A failing difficulty-settings read, after all metadata read, ends the scalar reads with its own error. */
  lemma SettingsReadFails<N, S, B, F, R>(c: Codecs<N, S, B, F, R>, secs: Sections, k: nat)
    requires 10 <= k < 13
    requires forall j :: 0 <= j < k ==> ReadSucceeds(c, secs, ScalarReads[j])
    requires !ReadSucceeds(c, secs, ScalarReads[k])
    ensures Scalars(c, secs) == Failure(ReadError(secs, ScalarReads[k]))
  {
    assert ReadSucceeds(c, secs, ScalarReads[0]);
    assert ReadSucceeds(c, secs, ScalarReads[1]);
    assert ReadSucceeds(c, secs, ScalarReads[2]);
    assert ReadSucceeds(c, secs, ScalarReads[3]);
    assert ReadSucceeds(c, secs, ScalarReads[4]);
    assert ReadSucceeds(c, secs, ScalarReads[5]);
    assert ReadSucceeds(c, secs, ScalarReads[6]);
    assert ReadSucceeds(c, secs, ScalarReads[7]);
    assert ReadSucceeds(c, secs, ScalarReads[8]);
    assert ReadSucceeds(c, secs, ScalarReads[9]);
    if k == 11 {
      assert ReadSucceeds(c, secs, ScalarReads[10]);
    } else if k == 12 {
      assert ReadSucceeds(c, secs, ScalarReads[10]);
      assert ReadSucceeds(c, secs, ScalarReads[11]);
    }
  }

  /** `from_str` raises for the first of its thirteen scalar reads that fails,
      naming that read's section and key, and its text for a failed conversion. */
  lemma ParseFailsAtFirstBadRead<N, S, B, F, R>(c: Codecs<N, S, B, F, R>, secs: Sections, k: nat)
    requires k < |ScalarReads|
    requires forall j :: 0 <= j < k ==> ReadSucceeds(c, secs, ScalarReads[j])
    requires !ReadSucceeds(c, secs, ScalarReads[k])
    ensures Parse(c, secs) == Failure(ReadError(secs, ScalarReads[k]))
  {
    if k < 4 {
      SongMetadataReadFails(c, secs, k);
    } else if k < 8 {
      MapMetadataReadFails(c, secs, k);
    } else if k < 10 {
      MapIdReadFails(c, secs, k);
    } else {
      SettingsReadFails(c, secs, k);
    }
  }
}
