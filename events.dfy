/** The `Events` loop of `Difficulty.from_str`: each line is classified by the
    integer before its first comma, looked up in the `EventType` enumeration,
    decoded by the matching event class and appended to one of three lists.

    The enumeration lookup and the three `from_str` decoders live in files
    outside this model; they are parameters (`EventCodecs`), each free to fail. */
module Events {
  import opened Wrappers
  import opened Integers
  import opened Input

  /** The members of `EventType` the loop tests for; `OtherType` is any other member. */
  datatype EventType = SpeedChange | BpmChange | FeverToggle | OtherType(code: int)

  datatype EventCodecs<S, B, F> = EventCodecs(
    eventType: int -> Option<EventType>,   // EventType(code); None is its ValueError
    speedEvent: string -> Option<S>,       // SpeedEvent.from_str
    bpmEvent: string -> Option<B>,         // BPMEvent.from_str
    feverEvent: string -> Option<F>)       // FeverEvent.from_str

  datatype EventLists<S, B, F> = EventLists(speed: seq<S>, bpm: seq<B>, fever: seq<F>)

  /** Where one line ends up. */
  datatype Routed<S, B, F> = ToSpeed(s: S) | ToBpm(b: B) | ToFever(f: F) | Dropped

  /** `line.split(",")[0]`: the text before the first comma, or the whole line. */
  function FirstField(line: string): (r: string)
    ensures r <= line
    ensures ',' !in r
    ensures r == line || line[|r|] == ','
  {
    if line == [] || line[0] == ',' then [] else [line[0]] + FirstField(line[1..])
  }

  /** `EventType(int(line.split(",")[0]))`. */
  function Classify<S, B, F>(c: EventCodecs<S, B, F>, line: string): Result<EventType, Error> {
    match ParseInt(FirstField(line))
    case None => Failure(BadEventCode(line))
    case Some(code) =>
      match c.eventType(code)
      case None => Failure(UnknownEventType(line, code))
      case Some(t) => Success(t)
  }

  /** One iteration of the loop: classify, then decode with the matching class. */
  function Dispatch<S, B, F>(c: EventCodecs<S, B, F>, line: string): Result<Routed<S, B, F>, Error> {
    var t :- Classify(c, line);
    match t
    case SpeedChange =>
      (match c.speedEvent(line) case None => Failure(BadEvent(line)) case Some(s) => Success(ToSpeed(s)))
    case BpmChange =>
      (match c.bpmEvent(line) case None => Failure(BadEvent(line)) case Some(b) => Success(ToBpm(b)))
    case FeverToggle =>
      (match c.feverEvent(line) case None => Failure(BadEvent(line)) case Some(f) => Success(ToFever(f)))
    case OtherType(_) => Success(Dropped)
  }

  function Append<S, B, F>(acc: EventLists<S, B, F>, routed: Routed<S, B, F>): EventLists<S, B, F> {
    match routed
    case ToSpeed(s) => acc.(speed := acc.speed + [s])
    case ToBpm(b) => acc.(bpm := acc.bpm + [b])
    case ToFever(f) => acc.(fever := acc.fever + [f])
    case Dropped => acc
  }

  /** The whole loop as a function: the lists after the last line, or the
      error of the first line that fails. */
  function Partition<S, B, F>(c: EventCodecs<S, B, F>, lines: seq<string>): Result<EventLists<S, B, F>, Error>
    decreases |lines|
  {
    if lines == [] then Success(EventLists([], [], []))
    else
      var acc :- Partition(c, lines[..|lines| - 1]);
      var routed :- Dispatch(c, lines[|lines| - 1]);
      Success(Append(acc, routed))
  }

  /** The loop as the source writes it: three empty lists, one append per
      routed line, the first failure aborting the whole loop. */
  method PartitionEvents<S, B, F>(c: EventCodecs<S, B, F>, lines: seq<string>)
    returns (r: Result<EventLists<S, B, F>, Error>)
    ensures r == Partition(c, lines)
  {
    var speed: seq<S> := [];
    var bpm: seq<B> := [];
    var fever: seq<F> := [];
    var i := 0;
    while i < |lines|
      invariant 0 <= i <= |lines|
      invariant Partition(c, lines[..i]) == Success(EventLists(speed, bpm, fever))
    {
      var event := lines[i];
      assert lines[..i + 1][..i] == lines[..i];
      assert lines[..i + 1][i] == event;
      var code := ParseInt(FirstField(event));
      if code.None? {
        PartitionKeepsFirstFailure(c, lines, i + 1);
        return Failure(BadEventCode(event));
      }
      var eventType := c.eventType(code.value);
      if eventType.None? {
        PartitionKeepsFirstFailure(c, lines, i + 1);
        return Failure(UnknownEventType(event, code.value));
      }
      if eventType.value == SpeedChange {
        var e := c.speedEvent(event);
        if e.None? {
          PartitionKeepsFirstFailure(c, lines, i + 1);
          return Failure(BadEvent(event));
        }
        speed := speed + [e.value];
      } else if eventType.value == BpmChange {
        var e := c.bpmEvent(event);
        if e.None? {
          PartitionKeepsFirstFailure(c, lines, i + 1);
          return Failure(BadEvent(event));
        }
        bpm := bpm + [e.value];
      } else if eventType.value == FeverToggle {
        var e := c.feverEvent(event);
        if e.None? {
          PartitionKeepsFirstFailure(c, lines, i + 1);
          return Failure(BadEvent(event));
        }
        fever := fever + [e.value];
      }
      i := i + 1;
    }
    assert lines[..i] == lines;
    return Success(EventLists(speed, bpm, fever));
  }

  // ---------------------------------------------------------------------
  // Reference definitions: which lines belong to which list

  /** The lines whose code is `t`, in file order. */
  function LinesOf<S, B, F>(c: EventCodecs<S, B, F>, lines: seq<string>, t: EventType): seq<string>
    decreases |lines|
  {
    if lines == [] then []
    else
      var last := lines[|lines| - 1];
      LinesOf(c, lines[..|lines| - 1], t) + (if Classify(c, last) == Success(t) then [last] else [])
  }

  /** The lines whose code is a valid `EventType` other than the three the loop tests for. */
  function DroppedLines<S, B, F>(c: EventCodecs<S, B, F>, lines: seq<string>): seq<string>
    decreases |lines|
  {
    if lines == [] then []
    else
      var last := lines[|lines| - 1];
      var t := Classify(c, last);
      DroppedLines(c, lines[..|lines| - 1]) + (if t.Success? && t.value.OtherType? then [last] else [])
  }

  // ---------------------------------------------------------------------
  // Properties of the partition

  /** Only the text before the first comma is read as the type code. */
  lemma {:induction false} FirstFieldOfRecord(code: string, rest: string)
    requires ',' !in code
    ensures FirstField(code + "," + rest) == code
    decreases |code|
  {
    if code != [] {
      assert (code + "," + rest)[1..] == code[1..] + "," + rest;
      FirstFieldOfRecord(code[1..], rest);
    }
  }

  /** The type of a `code,payload...` line is decided by `code` alone. */
  lemma ClassifyReadsCodeOnly<S, B, F>(c: EventCodecs<S, B, F>, code: string, rest: string)
    requires ',' !in code
    ensures Classify(c, code + "," + rest).Success? <==> ParseInt(code).Some? && c.eventType(ParseInt(code).value).Some?
    ensures Classify(c, code + "," + rest).Success? ==> c.eventType(ParseInt(code).value) == Some(Classify(c, code + "," + rest).value)
  {
    FirstFieldOfRecord(code, rest);
  }

  /** The loop fails exactly when some line fails: no partial lists are returned. */
  lemma {:induction false} PartitionFailsIff<S, B, F>(c: EventCodecs<S, B, F>, lines: seq<string>)
    ensures Partition(c, lines).Failure? <==> exists i :: 0 <= i < |lines| && Dispatch(c, lines[i]).Failure?
    decreases |lines|
  {
    if lines != [] {
      var init := lines[..|lines| - 1];
      PartitionFailsIff(c, init);
      assert forall i :: 0 <= i < |init| ==> init[i] == lines[i];
    }
  }

  /** A failing loop reports the error of the first failing line. */
  lemma {:induction false} PartitionFailsAtFirstBadLine<S, B, F>(c: EventCodecs<S, B, F>, lines: seq<string>)
    requires Partition(c, lines).Failure?
    ensures exists i :: 0 <= i < |lines| && Dispatch(c, lines[i]) == Failure(Partition(c, lines).error)
                        && forall j :: 0 <= j < i ==> Dispatch(c, lines[j]).Success?
    decreases |lines|
  {
    var init, n := lines[..|lines| - 1], |lines| - 1;
    assert forall i :: 0 <= i < n ==> init[i] == lines[i];
    if Partition(c, init).Failure? {
      PartitionFailsAtFirstBadLine(c, init);
    } else {
      PartitionFailsIff(c, init);
      assert Dispatch(c, lines[n]) == Failure(Partition(c, lines).error);
    }
  }

  lemma AppendInOrder<T>(decode: string -> Option<T>, src: seq<string>, out: seq<T>, line: string, x: T)
    requires DecodedInOrder(decode, src, out)
    requires decode(line) == Some(x)
    ensures DecodedInOrder(decode, src + [line], out + [x])
  {
    assert forall i :: 0 <= i < |src| ==> (src + [line])[i] == src[i] && (out + [x])[i] == out[i];
  }

  /** On success each list is the decode of exactly the lines carrying its
      code, in the order those lines appear. */
  lemma {:induction false} PartitionContents<S, B, F>(c: EventCodecs<S, B, F>, lines: seq<string>)
    requires Partition(c, lines).Success?
    ensures DecodedInOrder(c.speedEvent, LinesOf(c, lines, SpeedChange), Partition(c, lines).value.speed)
    ensures DecodedInOrder(c.bpmEvent, LinesOf(c, lines, BpmChange), Partition(c, lines).value.bpm)
    ensures DecodedInOrder(c.feverEvent, LinesOf(c, lines, FeverToggle), Partition(c, lines).value.fever)
    decreases |lines|
  {
    if lines != [] {
      var init, last := lines[..|lines| - 1], lines[|lines| - 1];
      PartitionContents(c, init);
      var acc := Partition(c, init).value;
      match Classify(c, last).value
      case SpeedChange =>
        AppendInOrder(c.speedEvent, LinesOf(c, init, SpeedChange), acc.speed, last, c.speedEvent(last).value);
      case BpmChange =>
        AppendInOrder(c.bpmEvent, LinesOf(c, init, BpmChange), acc.bpm, last, c.bpmEvent(last).value);
      case FeverToggle =>
        AppendInOrder(c.feverEvent, LinesOf(c, init, FeverToggle), acc.fever, last, c.feverEvent(last).value);
      case OtherType(_) =>
    }
  }

  /** The four filters, joined as multisets. */
  ghost function Routes<S, B, F>(c: EventCodecs<S, B, F>, lines: seq<string>): multiset<string> {
    multiset(LinesOf(c, lines, SpeedChange)) + multiset(LinesOf(c, lines, BpmChange))
      + multiset(LinesOf(c, lines, FeverToggle)) + multiset(DroppedLines(c, lines))
  }

  /** Adding `x` to exactly one of four multisets adds it once to their union. */
  lemma JoinStep(a: multiset<string>, b: multiset<string>, c: multiset<string>, d: multiset<string>,
                 a': multiset<string>, b': multiset<string>, c': multiset<string>, d': multiset<string>,
                 x: string, k: nat)
    requires k < 4
    requires a' == a + (if k == 0 then multiset{x} else multiset{})
    requires b' == b + (if k == 1 then multiset{x} else multiset{})
    requires c' == c + (if k == 2 then multiset{x} else multiset{})
    requires d' == d + (if k == 3 then multiset{x} else multiset{})
    ensures a' + b' + c' + d' == a + b + c + d + multiset{x}
  {
  }

  /** A line that classifies adds itself to exactly one filter. */
  lemma RoutesStep<S, B, F>(c: EventCodecs<S, B, F>, lines: seq<string>)
    requires lines != [] && Classify(c, lines[|lines| - 1]).Success?
    ensures Routes(c, lines) == Routes(c, lines[..|lines| - 1]) + multiset{lines[|lines| - 1]}
  {
    var init, last := lines[..|lines| - 1], lines[|lines| - 1];
    var t := Classify(c, last).value;
    var k := match t case SpeedChange => 0 case BpmChange => 1 case FeverToggle => 2 case OtherType(_) => 3;
    JoinStep(multiset(LinesOf(c, init, SpeedChange)), multiset(LinesOf(c, init, BpmChange)),
             multiset(LinesOf(c, init, FeverToggle)), multiset(DroppedLines(c, init)),
             multiset(LinesOf(c, lines, SpeedChange)), multiset(LinesOf(c, lines, BpmChange)),
             multiset(LinesOf(c, lines, FeverToggle)), multiset(DroppedLines(c, lines)),
             last, k);
  }

  /** Every line that classifies lands in exactly one of the four filters. */
  lemma {:induction false} ClassifiedLinesSplit<S, B, F>(c: EventCodecs<S, B, F>, lines: seq<string>)
    requires forall i :: 0 <= i < |lines| ==> Classify(c, lines[i]).Success?
    ensures Routes(c, lines) == multiset(lines)
    decreases |lines|
  {
    if lines != [] {
      var init, last := lines[..|lines| - 1], lines[|lines| - 1];
      assert forall i :: 0 <= i < |init| ==> init[i] == lines[i];
      ClassifiedLinesSplit(c, init);
      RoutesStep(c, lines);
      assert lines == init + [last];
    }
  }

  /** On success every line is routed to exactly one place: one of the three
      lists or, for any other valid type, nowhere. */
  lemma PartitionRoutesEachLineOnce<S, B, F>(c: EventCodecs<S, B, F>, lines: seq<string>)
    requires Partition(c, lines).Success?
    ensures multiset(LinesOf(c, lines, SpeedChange)) + multiset(LinesOf(c, lines, BpmChange))
      + multiset(LinesOf(c, lines, FeverToggle)) + multiset(DroppedLines(c, lines)) == multiset(lines)
    ensures var ls := Partition(c, lines).value;
      |ls.speed| + |ls.bpm| + |ls.fever| + |DroppedLines(c, lines)| == |lines|
  {
    PartitionFailsIff(c, lines);
    forall i | 0 <= i < |lines| ensures Classify(c, lines[i]).Success? {
      assert Dispatch(c, lines[i]).Success?;
    }
    ClassifiedLinesSplit(c, lines);
    PartitionContents(c, lines);
    var speed, bpm, fever, dropped :=
      LinesOf(c, lines, SpeedChange), LinesOf(c, lines, BpmChange), LinesOf(c, lines, FeverToggle), DroppedLines(c, lines);
    assert |multiset(lines)| == |speed| + |bpm| + |fever| + |dropped| by {
      assert multiset(speed) + multiset(bpm) + multiset(fever) + multiset(dropped) == multiset(lines);
    }
  }

  /** Once a prefix of the lines fails, the whole loop fails with that error. */
  lemma {:induction false} PartitionKeepsFirstFailure<S, B, F>(c: EventCodecs<S, B, F>, lines: seq<string>, k: nat)
    requires k <= |lines|
    requires Partition(c, lines[..k]).Failure?
    ensures Partition(c, lines) == Partition(c, lines[..k])
    decreases |lines|
  {
    if k == |lines| {
      assert lines[..k] == lines;
    } else {
      var init := lines[..|lines| - 1];
      assert init[..k] == lines[..k];
      PartitionKeepsFirstFailure(c, init, k);
    }
  }
}
