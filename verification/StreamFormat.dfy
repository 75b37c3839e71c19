/** Event streams as servers write them, and the proof that they are read back:
    with or without a space after `data:`, with either line end, and with other
    fields and comments in between (internal/prewarm/completion.go). */
module StreamFormat {
  import opened Base
  import opened Completions
  import opened CompletionStream

  /** A line of an event: a data field, or anything else that is not blank. */
  datatype Field =
    | Data(text: Bytes, space: bool, cr: bool)
    | Other(text: Bytes, cr: bool)
  {
    predicate Proper() {
      && 10 !in text
      && (!cr ==> text == [] || text[|text| - 1] != 13)
      && match this
         case Data(_, space, _) => space || text == [] || text[0] != 32
         case Other(_, _) => text != [] && !([100, 97, 116, 97, 58] <= text)
    }

    function Content(): Bytes {
      match this
      case Data(_, space, _) => [100, 97, 116, 97, 58] + (if space then [32] else []) + text
      case Other(_, _) => text
    }

    function Line(): Bytes {
      Content() + (if cr then [13] else [])
    }
  }

  function PrintFields(fields: seq<Field>): Bytes {
    if fields == [] then [] else fields[0].Line() + [10] + PrintFields(fields[1..])
  }

  /** The data lines of an event, each with a line feed. */
  function DataLines(fields: seq<Field>): Bytes {
    if fields == [] then []
    else (if fields[0].Data? then fields[0].text + [10] else []) + DataLines(fields[1..])
  }

  /** An event and the blank line that closes it. */
  datatype Event = Event(fields: seq<Field>, cr: bool)
  {
    function Blank(): Bytes {
      if cr then [13] else []
    }
  }

  function Print(events: seq<Event>): Bytes {
    if events == [] then []
    else PrintFields(events[0].fields) + events[0].Blank() + [10] + Print(events[1..])
  }

  function Contents(events: seq<Event>): seq<Bytes> {
    if events == [] then [] else [DataLines(events[0].fields)] + Contents(events[1..])
  }

  ghost predicate AllProper(fields: seq<Field>) {
    forall f <- fields :: f.Proper()
  }

  lemma Regroup(a: Bytes, b: Bytes, c: Bytes, d: Bytes)
    ensures a + b + c + d == a + (b + c + d)
    ensures a + b + c + d == a + b + (c + d)
  {
  }

  lemma Nothing(a: Bytes)
    ensures [] + a == a && a + [] == a
  {
  }

  lemma {:induction false} FirstFeed(line: Bytes, rest: Bytes)
    requires LF !in line
    ensures FirstLF(line + [LF] + rest) == |line|
  {
    var s := line + [LF] + rest;
    if line == [] {
      assert s[0] == LF;
    } else {
      assert s[1..] == line[1..] + [LF] + rest;
      FirstFeed(line[1..], rest);
      assert s[0] == line[0];
    }
  }

  lemma LinesOfLine(line: Bytes, rest: Bytes)
    requires LF !in line
    ensures Lines(line + [LF] + rest) == [line] + Lines(rest)
  {
    var s := line + [LF] + rest;
    FirstFeed(line, rest);
    assert s[..|line|] == line && s[|line| + 1..] == rest;
  }

  lemma PayloadsOfLine(line: Bytes, rest: seq<Bytes>, gathered: Bytes)
    ensures Payloads([line] + rest, gathered)
         == if TrimCR(line) == [] then [gathered] + Payloads(rest, [])
            else if DATA <= TrimCR(line) then Payloads(rest, gathered + DataOf(TrimCR(line)) + [LF])
            else Payloads(rest, gathered)
  {
    assert ([line] + rest)[1..] == rest;
  }

  lemma LineTrims(f: Field)
    requires f.Proper()
    ensures TrimCR(f.Line()) == f.Content() != [] && LF !in f.Line()
  {
    var c := f.Content();
    if f.cr {
      assert f.Line()[..|c|] == c;
    } else {
      assert f.Line() == c;
      if f.Data? && f.text != [] {
        assert c[|c| - 1] == f.text[|f.text| - 1];
      }
    }
  }

  lemma DataReads(f: Field)
    requires f.Proper() && f.Data?
    ensures DATA <= f.Content() && DataOf(f.Content()) == f.text
  {
    var c := f.Content();
    if f.space {
      assert c[5..] == [32] + f.text;
    } else {
      assert c[5..] == f.text;
    }
  }

  lemma FieldReads(f: Field, rest: Bytes, gathered: Bytes)
    requires f.Proper()
    ensures Payloads(Lines(f.Line() + [LF] + rest), gathered)
         == Payloads(Lines(rest), if f.Data? then gathered + f.text + [LF] else gathered)
  {
    LineTrims(f);
    LinesOfLine(f.Line(), rest);
    PayloadsOfLine(f.Line(), Lines(rest), gathered);
    if f.Data? {
      DataReads(f);
    }
  }

  lemma GatheredMore(fields: seq<Field>, gathered: Bytes)
    requires fields != []
    ensures gathered + DataLines(fields)
         == (if fields[0].Data? then gathered + fields[0].text + [LF] else gathered) + DataLines(fields[1..])
  {
    if fields[0].Data? {
      Regroup(gathered, fields[0].text, [LF], DataLines(fields[1..]));
    } else {
      Nothing(DataLines(fields[1..]));
    }
  }

  lemma {:induction false} FieldsRead(fields: seq<Field>, rest: Bytes, gathered: Bytes)
    requires AllProper(fields)
    ensures Payloads(Lines(PrintFields(fields) + rest), gathered)
         == Payloads(Lines(rest), gathered + DataLines(fields))
    decreases |fields|
  {
    if fields == [] {
      Nothing(rest);
      Nothing(gathered);
    } else {
      var f, more := fields[0], fields[1..];
      var next := if f.Data? then gathered + f.text + [LF] else gathered;
      Regroup(f.Line(), [LF], PrintFields(more), rest);
      FieldReads(f, PrintFields(more) + rest, gathered);
      FieldsRead(more, rest, next);
      GatheredMore(fields, gathered);
    }
  }

  lemma BlankReads(e: Event, rest: Bytes, gathered: Bytes)
    ensures Payloads(Lines(e.Blank() + [LF] + rest), gathered) == [gathered] + Payloads(Lines(rest), [])
  {
    LinesOfLine(e.Blank(), rest);
    PayloadsOfLine(e.Blank(), Lines(rest), gathered);
  }

  lemma EventReads(e: Event, rest: Bytes)
    requires AllProper(e.fields)
    ensures Payloads(Lines(PrintFields(e.fields) + e.Blank() + [10] + rest), [])
         == [DataLines(e.fields)] + Payloads(Lines(rest), [])
  {
    var tail := e.Blank() + [LF] + rest;
    FieldsRead(e.fields, tail, []);
    BlankReads(e, rest, DataLines(e.fields));
    Nothing(DataLines(e.fields));
    Regroup(PrintFields(e.fields), e.Blank(), [LF], rest);
  }

  /** Whatever the styles of its lines, a stream is read as the data of its
      events, one after the other; nothing is left open at the end. */
  lemma {:induction false} StreamRoundTrip(events: seq<Event>)
    requires forall e <- events :: AllProper(e.fields)
    ensures Payloads(Lines(Print(events)), []) == Contents(events) + [[]]
    decreases |events|
  {
    if events == [] {
      assert Lines([]) == [];
    } else {
      EventReads(events[0], Print(events[1..]));
      StreamRoundTrip(events[1..]);
    }
  }
}
