/** The hash-chained audit log: every run verifies, the last hash determines the
    whole log, and a crash inside a row costs exactly that row, once. */
module AuditLog {
  import opened Text
  import opened Wrappers
  import opened MarketCalendar

  // ---------------------------------------------------------------- events

  /** What `before` and `after` may carry; Foreign is any type JSON lacks. */
  datatype Value =
    | Scalar(text: string)
    | Sequence(items: seq<Value>)
    | Mapping(entries: seq<(Value, Value)>)
    | Foreign(typeName: string)

  datatype Payload = Payload(
    number: int,
    actor: string,
    action: string,
    objectType: string,
    objectId: string,
    before: Value,
    after: Value,
    correlationId: Option<string>,
    timestamp: Instant
  )

  datatype Event = Event(payload: Payload, prevHash: string, hash: string)

  datatype AuditError = NotJsonNative | Malformed | NotAnEvent

  /** Sixty-four zeros. */
  const GENESIS := "0000000000000000000000000000000000000000000000000000000000000000"

  /** Scalars, sequences, and mappings keyed by strings, all the way down. */
  predicate JsonNative(v: Value) {
    match v
    case Scalar(_) => true
    case Sequence(items) => forall i :: 0 <= i < |items| ==> JsonNative(items[i])
    case Mapping(entries) =>
      forall i :: 0 <= i < |entries| ==> entries[i].0.Scalar? && JsonNative(entries[i].1)
    case Foreign(_) => false
  }

  // ---------------------------------------------------------------- the chain

  /** SHA-256 over the previous hash and the payload's canonical text. */
  type Digest = (Payload, string) -> string

  ghost predicate Injective(digest: Digest) {
    forall p, h, q, g :: digest(p, h) == digest(q, g) ==> p == q && h == g
  }

  function LastHash(events: seq<Event>): string {
    if events == [] then GENESIS else events[|events| - 1].hash
  }

  /** Numbered from one, each row naming the hash before it and its own. */
  predicate Verifies(digest: Digest, events: seq<Event>) {
    events == [] ||
    var front, last := events[..|events| - 1], events[|events| - 1];
    && Verifies(digest, front)
    && last.payload.number == |events| && last.prevHash == LastHash(front)
    && last.hash == digest(last.payload, last.prevHash)
  }

  lemma VerifiesAppend(digest: Digest, events: seq<Event>, e: Event)
    ensures Verifies(digest, events + [e]) <==>
            && Verifies(digest, events)
            && e.payload.number == |events| + 1 && e.prevHash == LastHash(events)
            && e.hash == digest(e.payload, e.prevHash)
  {
    assert (events + [e])[..|events|] == events;
  }

  lemma {:induction false} PrefixVerifies(digest: Digest, events: seq<Event>, n: nat)
    requires Verifies(digest, events) && n <= |events|
    ensures Verifies(digest, events[..n])
    decreases |events|
  {
    if n == |events| {
      assert events[..n] == events;
    } else {
      PrefixVerifies(digest, events[..|events| - 1], n);
      assert events[..|events| - 1][..n] == events[..n];
    }
  }

  /** Tamper evidence: two verifying logs of one length with one last hash are
      the same log, row by row. */
  lemma {:induction false} LastHashDetermines(digest: Digest, a: seq<Event>, b: seq<Event>)
    requires Injective(digest) && Verifies(digest, a) && Verifies(digest, b)
    requires |a| == |b| && LastHash(a) == LastHash(b)
    ensures a == b
  {
    if a != [] {
      var n := |a| - 1;
      assert digest(a[n].payload, a[n].prevHash) == digest(b[n].payload, b[n].prevHash);
      LastHashDetermines(digest, a[..n], b[..n]);
      assert a == a[..n] + [a[n]] && b == b[..n] + [b[n]];
    }
  }

  // ---------------------------------------------------------------- the file

  datatype Parsed = NotJson | OtherJson | EventRow(event: Event)

  datatype Codec = Codec(encode: Event -> string, decode: string -> Parsed)

  predicate Blank(line: string) {
    forall c :: c in line ==> IsSpace(c)
  }

  /** What JSON objects on one line give: a row decodes to itself, no proper
      prefix of a row parses, and neither does a row, cut or whole, with another
      row behind it on its line. */
  ghost predicate JsonRows(codec: Codec) {
    && (forall e :: codec.decode(codec.encode(e)) == EventRow(e))
    && (forall e :: codec.encode(e) != "" && !IsSpace(codec.encode(e)[0]) && '\n' !in codec.encode(e))
    && (forall e, n :: 0 < n < |codec.encode(e)| ==> codec.decode(codec.encode(e)[..n]) == NotJson)
    && (forall e, n, f :: 0 < n <= |codec.encode(e)| ==>
          codec.decode(codec.encode(e)[..n] + codec.encode(f)) == NotJson)
  }

  function FileOf(codec: Codec, events: seq<Event>): string {
    if events == [] then "" else FileOf(codec, events[..|events| - 1]) + codec.encode(events[|events| - 1]) + "\n"
  }

  function LineEnd(text: string): (n: nat)
    ensures n <= |text| && '\n' !in text[..n] && (n < |text| ==> text[n] == '\n')
  {
    if text == "" || text[0] == '\n' then 0 else 1 + LineEnd(text[1..])
  }

  /** The lines of a text that hold anything. */
  function Rows(text: string): seq<string>
    decreases |text|
  {
    if text == "" then []
    else
      var n := LineEnd(text);
      var rest := if n < |text| then Rows(text[n + 1..]) else [];
      if Blank(text[..n]) then rest else [text[..n]] + rest
  }

  datatype Loaded = Loaded(events: seq<Event>, tail: Option<string>)

  /** Row by row; a row that does not parse is a crash if it is the last one,
      and tampering anywhere else. */
  function LoadRows(codec: Codec, rows: seq<string>): Result<Loaded, AuditError> {
    if rows == [] then Ok(Loaded([], None))
    else match codec.decode(rows[0])
         case NotJson => if |rows| == 1 then Ok(Loaded([], Some(rows[0]))) else Err(Malformed)
         case OtherJson => Err(NotAnEvent)
         case EventRow(e) =>
           (match LoadRows(codec, rows[1..])
            case Err(x) => Err(x)
            case Ok(l) => Ok(Loaded([e] + l.events, l.tail)))
  }

  function Load(codec: Codec, text: string): Result<Loaded, AuditError> {
    LoadRows(codec, Rows(text))
  }

  // ---------------------------------------------------------------- what a load gives back

  /** The hypotheses on one row, and on one cut. */
  lemma RowText(codec: Codec, e: Event)
    requires JsonRows(codec)
    ensures codec.decode(codec.encode(e)) == EventRow(e)
    ensures codec.encode(e) != "" && !IsSpace(codec.encode(e)[0]) && '\n' !in codec.encode(e) && !Blank(codec.encode(e))
  {
    assert codec.encode(e)[0] in codec.encode(e);
  }

  lemma CutText(codec: Codec, e: Event, n: nat)
    requires JsonRows(codec) && 0 < n < |codec.encode(e)|
    ensures var cut := codec.encode(e)[..n];
            codec.decode(cut) == NotJson && '\n' !in cut && !Blank(cut)
  {
    RowText(codec, e);
    var cut := codec.encode(e)[..n];
    assert cut[0] == codec.encode(e)[0] && cut[0] in cut;
  }

  lemma GluedText(codec: Codec, e: Event, n: nat, f: Event)
    requires JsonRows(codec) && 0 < n <= |codec.encode(e)|
    ensures var glued := codec.encode(e)[..n] + codec.encode(f);
            codec.decode(glued) == NotJson && '\n' !in glued && !Blank(glued)
  {
    RowText(codec, e);
    RowText(codec, f);
    var glued := codec.encode(e)[..n] + codec.encode(f);
    assert glued[0] == codec.encode(e)[0] && glued[0] in glued;
  }

  lemma LineEndOf(line: string, rest: string)
    requires '\n' !in line
    ensures LineEnd(line + "\n" + rest) == |line|
    ensures LineEnd(line) == |line|
  {
    var text := line + "\n" + rest;
    assert text[|line|] == '\n';
  }

  lemma RowsFirst(line: string, rest: string)
    requires '\n' !in line && !Blank(line)
    ensures Rows(line + "\n" + rest) == [line] + Rows(rest)
    ensures Rows(line) == [line]
  {
    hide Blank;
    var text := line + "\n" + rest;
    LineEndOf(line, rest);
    assert text[..|line|] == line && text[|line| + 1..] == rest;
    assert line[..|line|] == line;
    EmptyIsBlank();
  }

  lemma EmptyIsBlank()
    ensures Blank("")
  {
  }

  function Encoded(codec: Codec, events: seq<Event>): seq<string> {
    seq(|events|, i requires 0 <= i < |events| => codec.encode(events[i]))
  }

  /** Complete rows come first, whatever text follows them. */
  lemma {:induction false} RowsOfFile(codec: Codec, events: seq<Event>, tail: string)
    requires JsonRows(codec)
    ensures Rows(FileOf(codec, events) + tail) == Encoded(codec, events) + Rows(tail)
    decreases |events|
  {
    hide JsonRows, Rows, Blank;
    if events == [] {
      assert FileOf(codec, events) + tail == tail;
      assert Encoded(codec, events) + Rows(tail) == Rows(tail);
    } else {
      var front, last := events[..|events| - 1], events[|events| - 1];
      var line := codec.encode(last);
      RowText(codec, last);
      assert FileOf(codec, events) + tail == FileOf(codec, front) + (line + "\n" + tail);
      RowsOfFile(codec, front, line + "\n" + tail);
      RowsFirst(line, tail);
      assert Encoded(codec, events) == Encoded(codec, front) + [line];
      assert Encoded(codec, front) + ([line] + Rows(tail)) == Encoded(codec, events) + Rows(tail);
    }
  }

  function Prepended(events: seq<Event>, r: Result<Loaded, AuditError>): Result<Loaded, AuditError> {
    match r case Err(x) => Err(x) case Ok(l) => Ok(Loaded(events + l.events, l.tail))
  }

  lemma PrependedTwice(a: seq<Event>, b: seq<Event>, r: Result<Loaded, AuditError>)
    ensures Prepended(a, Prepended(b, r)) == Prepended(a + b, r)
    ensures Prepended([], r) == r
  {
    if r.Ok? {
      assert a + (b + r.value.events) == (a + b) + r.value.events;
      assert [] + r.value.events == r.value.events;
    }
  }

  lemma {:induction false} LoadEncoded(codec: Codec, events: seq<Event>, more: seq<string>)
    requires JsonRows(codec)
    ensures LoadRows(codec, Encoded(codec, events) + more) == Prepended(events, LoadRows(codec, more))
  {
    hide JsonRows, LoadRows, Prepended;
    var rows := Encoded(codec, events) + more;
    PrependedTwice([], [], LoadRows(codec, more));
    if events == [] {
      assert rows == more;
    } else {
      var first := events[0];
      LoadEncoded(codec, events[1..], more);
      assert rows == [codec.encode(first)] + (Encoded(codec, events[1..]) + more);
      LoadFirst(codec, first, Encoded(codec, events[1..]) + more);
      PrependedTwice([first], events[1..], LoadRows(codec, more));
      assert [first] + events[1..] == events;
    }
  }

  lemma LoadFirst(codec: Codec, e: Event, rest: seq<string>)
    requires JsonRows(codec)
    ensures LoadRows(codec, [codec.encode(e)] + rest) == Prepended([e], LoadRows(codec, rest))
  {
    RowText(codec, e);
    hide JsonRows;
    var rows := [codec.encode(e)] + rest;
    assert rows[0] == codec.encode(e) && rows[1..] == rest;
  }

  lemma LoadNothingMore(codec: Codec, events: seq<Event>)
    requires JsonRows(codec)
    ensures LoadRows(codec, Encoded(codec, events)) == Ok(Loaded(events, None))
  {
    hide JsonRows;
    LoadEncoded(codec, events, []);
    assert Encoded(codec, events) + [] == Encoded(codec, events) && events + [] == events;
  }

  lemma LoadUnparsed(codec: Codec, events: seq<Event>, bad: string, more: seq<string>)
    requires JsonRows(codec) && codec.decode(bad) == NotJson
    ensures LoadRows(codec, Encoded(codec, events) + ([bad] + more)) ==
            if more == [] then Ok(Loaded(events, Some(bad))) else Err(Malformed)
  {
    hide JsonRows;
    LoadEncoded(codec, events, [bad] + more);
    assert ([bad] + more)[0] == bad;
    assert events + [] == events;
  }

  /** A log that was never cut loads whole. */
  lemma WholeFileLoads(codec: Codec, events: seq<Event>)
    requires JsonRows(codec)
    ensures Load(codec, FileOf(codec, events)) == Ok(Loaded(events, None))
  {
    hide JsonRows, LoadRows, FileOf;
    assert FileOf(codec, events) + "" == FileOf(codec, events);
    RowsOfFile(codec, events, "");
    LoadNothingMore(codec, events);
    assert Encoded(codec, events) + [] == Encoded(codec, events);
  }

  /** A crash while the last row was being written, after any number of its
      characters: the complete rows load, they verify, and the cut text is
      reported. A row that lacks its line break alone loads too, this once. */
  lemma CutInsideLastRow(codec: Codec, digest: Digest, events: seq<Event>, e: Event, n: nat)
    requires JsonRows(codec) && Verifies(digest, events + [e]) && n <= |codec.encode(e)|
    ensures Load(codec, FileOf(codec, events) + codec.encode(e)[..n]) ==
            if n == 0 then Ok(Loaded(events, None))
            else if n < |codec.encode(e)| then Ok(Loaded(events, Some(codec.encode(e)[..n])))
            else Ok(Loaded(events + [e], None))
    ensures n == |codec.encode(e)| ==>
              FileOf(codec, events) + codec.encode(e)[..n] + "\n" == FileOf(codec, events + [e])
    ensures Verifies(digest, events)
  {
    FilesJoin(codec, events, [e]);
    assert [e][..0] == [] && FileOf(codec, [e]) == codec.encode(e) + "\n";
    hide JsonRows, Load, FileOf;
    VerifiesAppend(digest, events, e);
    if n == 0 {
      assert FileOf(codec, events) + codec.encode(e)[..n] == FileOf(codec, events);
      WholeFileLoads(codec, events);
    } else {
      CutLoads(codec, events, e, n);
    }
  }

  lemma {:induction false} FilesJoin(codec: Codec, a: seq<Event>, b: seq<Event>)
    ensures FileOf(codec, a + b) == FileOf(codec, a) + FileOf(codec, b)
  {
    if b == [] {
      assert a + b == a;
    } else {
      var front := b[..|b| - 1];
      FilesJoin(codec, a, front);
      assert (a + b)[..|a + b| - 1] == a + front;
    }
  }

  /** What is loaded once rows are appended behind a row cut after n characters,
      n being its whole length when only its line break is missing. */
  function LoadedBehindCut(codec: Codec, events: seq<Event>, lost: Event, n: nat, more: seq<Event>)
    : Result<Loaded, AuditError>
    requires n <= |codec.encode(lost)|
  {
    if n == 0 then Ok(Loaded(events + more, None))
    else if more == [] then
      if n < |codec.encode(lost)| then Ok(Loaded(events, Some(codec.encode(lost)[..n])))
      else Ok(Loaded(events + [lost], None))
    else if |more| == 1 then Ok(Loaded(events, Some(codec.encode(lost)[..n] + codec.encode(more[0]))))
    else Err(Malformed)
  }

  /** The cut text stays in the file, so the next row runs into it: the load
      after that has neither, although a row lacking its line break alone had
      been loaded before; one more row and every load refuses the file as
      tampered with. */
  lemma AppendsBehindCut(codec: Codec, events: seq<Event>, lost: Event, n: nat, more: seq<Event>)
    requires JsonRows(codec) && n <= |codec.encode(lost)|
    ensures Load(codec, FileOf(codec, events) + codec.encode(lost)[..n] + FileOf(codec, more)) ==
            LoadedBehindCut(codec, events, lost, n, more)
  {
    hide JsonRows, LoadRows, Rows, Blank;
    var cut := codec.encode(lost)[..n];
    var text := FileOf(codec, events) + cut + FileOf(codec, more);
    if n == 0 {
      FilesJoin(codec, events, more);
      assert text == FileOf(codec, events + more);
      WholeFileLoads(codec, events + more);
    } else if more == [] {
      assert text == FileOf(codec, events) + cut;
      CutLoads(codec, events, lost, n);
    } else {
      GluedLoads(codec, events, lost, n, more);
    }
  }

  lemma CutLoads(codec: Codec, events: seq<Event>, e: Event, n: nat)
    requires JsonRows(codec) && 0 < n <= |codec.encode(e)|
    ensures Load(codec, FileOf(codec, events) + codec.encode(e)[..n]) ==
            if n < |codec.encode(e)| then Ok(Loaded(events, Some(codec.encode(e)[..n])))
            else Ok(Loaded(events + [e], None))
  {
    hide JsonRows, LoadRows, Rows, FileOf, Blank;
    var cut := codec.encode(e)[..n];
    RowsOfFile(codec, events, cut);
    if n < |codec.encode(e)| {
      CutText(codec, e, n);
      RowsFirst(cut, "");
      LoadUnparsed(codec, events, cut, []);
      assert [cut] + [] == [cut];
    } else {
      RowText(codec, e);
      assert cut == codec.encode(e);
      RowsFirst(cut, "");
      assert Encoded(codec, events + [e]) == Encoded(codec, events) + [cut];
      LoadNothingMore(codec, events + [e]);
    }
  }

  lemma GluedLoads(codec: Codec, events: seq<Event>, lost: Event, n: nat, more: seq<Event>)
    requires JsonRows(codec) && 0 < n <= |codec.encode(lost)| && more != []
    ensures Load(codec, FileOf(codec, events) + codec.encode(lost)[..n] + FileOf(codec, more)) ==
            if |more| == 1 then Ok(Loaded(events, Some(codec.encode(lost)[..n] + codec.encode(more[0]))))
            else Err(Malformed)
  {
    hide JsonRows, LoadRows, Rows, Blank;
    var cut, f, rest := codec.encode(lost)[..n], more[0], more[1..];
    var glued, after := cut + codec.encode(f), FileOf(codec, rest);
    GluedText(codec, lost, n, f);
    assert more == [f] + rest && [f][..0] == [];
    FilesJoin(codec, [f], rest);
    assert FileOf(codec, [f]) == codec.encode(f) + "\n";
    assert FileOf(codec, events) + cut + FileOf(codec, more) == FileOf(codec, events) + (glued + "\n" + after);
    RowsOfFile(codec, events, glued + "\n" + after);
    RowsFirst(glued, after);
    assert after + "" == after;
    RowsOfFile(codec, rest, "");
    NoRows();
    LoadUnparsed(codec, events, glued, Rows(after));
    assert |Rows(after)| == |rest|;
  }

  /** Exactly when a row appended after a crash is kept: with `had` the rows the
      restarted process has, the next load gives them and the new row if and
      only if the crash left nothing of the row before it, not even the whole of
      it without its line break. */
  lemma AppendIsKeptIff(codec: Codec, events: seq<Event>, lost: Event, n: nat, f: Event)
    requires JsonRows(codec) && n <= |codec.encode(lost)|
    ensures var text := FileOf(codec, events) + codec.encode(lost)[..n];
            && Load(codec, text).Ok?
            && var had := Load(codec, text).value.events;
               Load(codec, text + codec.encode(f) + "\n") == Ok(Loaded(had + [f], None)) <==> n == 0
  {
    hide JsonRows, Load;
    var text := FileOf(codec, events) + codec.encode(lost)[..n];
    AppendsBehindCut(codec, events, lost, n, []);
    assert text + FileOf(codec, []) == text;
    AppendsBehindCut(codec, events, lost, n, [f]);
    assert [f][..0] == [];
    assert text + FileOf(codec, [f]) == text + codec.encode(f) + "\n";
    assert events + [] == events;
  }

  lemma NoRows()
    ensures Rows("") == []
  {
  }

  // ---------------------------------------------------------------- the object

  class Log {
    const digest: Digest
    const codec: Codec
    var events: seq<Event>
    var file: string
    var truncatedTail: Option<string>

    /** Every row in memory is on file with its line break, and nothing else is. */
    ghost predicate Whole()
      reads this
    {
      file == FileOf(codec, events)
    }

    /** The same, but a crash took the last line break. */
    ghost predicate Unended()
      reads this
    {
      events != [] && file + "\n" == FileOf(codec, events)
    }

    constructor (digest: Digest, codec: Codec)
      ensures Whole() && events == [] && truncatedTail.None?
      ensures this.digest == digest && this.codec == codec
    {
      this.digest, this.codec := digest, codec;
      events, file, truncatedTail := [], "", None;
    }

    /** Refuse what JSON lacks before touching anything; persist, then extend.
        The chain goes on as it was, verifying or not; whether the next load has
        the row depends on how the file ended. */
    method Append(actor: string, action: string, objectType: string, objectId: string, before: Value, after: Value,
                  correlationId: Option<string>, timestamp: Instant)
      returns (r: Result<Event, AuditError>)
      modifies this
      ensures truncatedTail == old(truncatedTail)
      ensures r.Err? <==> !(JsonNative(before) && JsonNative(after))
      ensures r.Err? ==> r.error == NotJsonNative && events == old(events) && file == old(file)
      ensures r.Ok? ==>
                && r.value.payload == Payload(|old(events)| + 1, actor, action, objectType, objectId, before, after,
                                              correlationId, timestamp)
                && r.value.prevHash == LastHash(old(events))
                && r.value.hash == digest(r.value.payload, r.value.prevHash)
                && events == old(events) + [r.value]
                && file == old(file) + codec.encode(r.value) + "\n"
      ensures Verifies(digest, events) <==> old(Verifies(digest, events))
      ensures old(Whole()) ==> Whole()
      ensures JsonRows(codec) && old(Whole()) ==> Load(codec, file) == Ok(Loaded(events, None))
      ensures JsonRows(codec) && old(Unended()) && r.Ok? ==>
                var kept, last := old(events)[..|old(events)| - 1], old(events)[|old(events)| - 1];
                Load(codec, file) == Ok(Loaded(kept, Some(codec.encode(last) + codec.encode(r.value))))
    {
      hide JsonRows, Load, Verifies;
      if JsonRows(codec) {
        WholeFileLoads(codec, events);
      }
      if !JsonNative(before) || !JsonNative(after) {
        return Err(NotJsonNative);
      }
      var prev := LastHash(events);
      var payload := Payload(|events| + 1, actor, action, objectType, objectId, before, after, correlationId,
                             timestamp);
      var ev := Event(payload, prev, digest(payload, prev));
      VerifiesAppend(digest, events, ev);
      assert (events + [ev])[..|events|] == events;
      if JsonRows(codec) {
        if Unended() {
          BehindUnended(codec, events, file, ev);
        }
        WholeFileLoads(codec, events + [ev]);
      }
      file := file + codec.encode(ev) + "\n";
      events := events + [ev];
      return Ok(ev);
    }

    method Verify() returns (ok: bool)
      ensures ok <==> Verifies(digest, events)
    {
      hide Verifies;
      VerifiesNothing(digest);
      var prev := GENESIS;
      for i := 0 to |events|
        invariant Verifies(digest, events[..i]) && prev == LastHash(events[..i])
      {
        var ev := events[i];
        assert events[..i + 1] == events[..i] + [ev];
        VerifiesAppend(digest, events[..i], ev);
        if ev.payload.number != i + 1 || ev.prevHash != prev || digest(ev.payload, prev) != ev.hash {
          NotVerifying(digest, events, i + 1);
          return false;
        }
        prev := ev.hash;
      }
      assert events[..|events|] == events;
      return true;
    }
  }

  /** A row appended to a file that lacks its last line break. */
  lemma BehindUnended(codec: Codec, events: seq<Event>, file: string, f: Event)
    requires JsonRows(codec) && events != [] && file + "\n" == FileOf(codec, events)
    ensures var kept, last := events[..|events| - 1], events[|events| - 1];
            Load(codec, file + codec.encode(f) + "\n") ==
            Ok(Loaded(kept, Some(codec.encode(last) + codec.encode(f))))
  {
    hide JsonRows, Load;
    var kept, last := events[..|events| - 1], events[|events| - 1];
    var line := codec.encode(last);
    assert FileOf(codec, events) == FileOf(codec, kept) + line + "\n";
    assert file == FileOf(codec, kept) + line by {
      assert (file + "\n")[..|file|] == file;
    }
    assert line[..|line|] == line;
    RowIsNotEmpty(codec, last);
    AppendsBehindCut(codec, kept, last, |line|, [f]);
    assert [f][..0] == [];
    assert file + FileOf(codec, [f]) == file + codec.encode(f) + "\n";
  }

  lemma RowIsNotEmpty(codec: Codec, e: Event)
    requires JsonRows(codec)
    ensures codec.encode(e) != ""
  {
  }

  lemma VerifiesNothing(digest: Digest)
    ensures Verifies(digest, [])
  {
  }

  lemma NotVerifying(digest: Digest, events: seq<Event>, n: nat)
    requires n <= |events| && !Verifies(digest, events[..n])
    ensures !Verifies(digest, events)
  {
    if Verifies(digest, events) {
      PrefixVerifies(digest, events, n);
    }
  }

  /** Construction over an existing file, whatever its last line. */
  method Open(digest: Digest, codec: Codec, text: string) returns (r: Result<Log, AuditError>)
    ensures match Load(codec, text)
            case Err(x) => r == Err(x)
            case Ok(l) =>
              && r.Ok? && fresh(r.value) && r.value.events == l.events && r.value.truncatedTail == l.tail
              && r.value.file == text
              && r.value.digest == digest && r.value.codec == codec
  {
    var log := new Log(digest, codec);
    log.file := text;
    var rows := Rows(text);
    var i := 0;
    assert rows[0..] == rows;
    PrependedTwice([], [], LoadRows(codec, rows));
    while i < |rows|
      invariant 0 <= i <= |rows| && log.truncatedTail.None?
      invariant log.digest == digest && log.codec == codec && log.file == text
      invariant LoadRows(codec, rows) == Prepended(log.events, LoadRows(codec, rows[i..]))
    {
      assert rows[i..][0] == rows[i] && rows[i..][1..] == rows[i + 1..];
      match codec.decode(rows[i]) {
        case NotJson =>
          if i < |rows| - 1 {
            return Err(Malformed);
          }
          assert log.events + [] == log.events;
          log.truncatedTail := Some(rows[i]);
          return Ok(log);
        case OtherJson =>
          return Err(NotAnEvent);
        case EventRow(e) =>
          PrependedTwice(log.events, [e], LoadRows(codec, rows[i + 1..]));
          assert LoadRows(codec, rows[i..]) == Prepended([e], LoadRows(codec, rows[i + 1..]));
          log.events := log.events + [e];
      }
      i := i + 1;
    }
    assert log.events + [] == log.events;
    return Ok(log);
  }

  // ---------------------------------------------------------------- runs

  datatype Step = Appended(payload: Payload) | Reloaded

  /** Appends and restarts in any order, none of them cut by a crash. */
  function Run(digest: Digest, codec: Codec, steps: seq<Step>): seq<Event> {
    if steps == [] then []
    else
      var before := Run(digest, codec, steps[..|steps| - 1]);
      match steps[|steps| - 1]
      case Appended(p) =>
        var payload := p.(number := |before| + 1);
        before + [Event(payload, LastHash(before), digest(payload, LastHash(before)))]
      case Reloaded =>
        match Load(codec, FileOf(codec, before))
        case Err(_) => []
        case Ok(l) => l.events
  }

  /** Every run of appends and reloads verifies, and a reload loses nothing. */
  lemma {:induction false} EveryRunVerifies(digest: Digest, codec: Codec, steps: seq<Step>)
    requires JsonRows(codec)
    ensures Verifies(digest, Run(digest, codec, steps))
    ensures steps != [] && steps[|steps| - 1].Reloaded? ==>
              Run(digest, codec, steps) == Run(digest, codec, steps[..|steps| - 1])
  {
    hide JsonRows, Load, FileOf;
    if steps != [] {
      var before := Run(digest, codec, steps[..|steps| - 1]);
      EveryRunVerifies(digest, codec, steps[..|steps| - 1]);
      match steps[|steps| - 1] {
        case Appended(p) =>
          var payload := p.(number := |before| + 1);
          VerifiesAppend(digest, before, Event(payload, LastHash(before), digest(payload, LastHash(before))));
        case Reloaded =>
          WholeFileLoads(codec, before);
      }
    }
  }
}
