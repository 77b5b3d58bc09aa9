/** The append-only session log (miniagent/session/session.go, session_rewrite.go, validate.go): one
    JSON record a line, healing after a crash, and the whole-file rewrite.  JSON is a parameter with
    the laws it needs; strings stand for byte strings. */
module Session {
  import opened Seqs
  import opened Transcript
  import opened Newlines

  // The metadata line: its type tag and the rest of its fields.
  datatype SessionMeta = SessionMeta(tag: string, fields: string)

  const NO_META := SessionMeta("", "")
  const TAG := "session"

  datatype Record = MetaLine(meta: SessionMeta) | MessageLine(m: Message)

  // What a line unmarshals to; a line whose type is not "session" is read as a message.
  datatype Decoded = Illegal | BadMeta | BadMessage | IsMeta(meta: SessionMeta) | IsMessage(m: Message)

  datatype Codec = Codec(encode: Record -> string, decode: string -> Decoded, trim: string -> string)

  function Meaning(r: Record): Decoded {
    match r
    case MetaLine(meta) => if meta.tag == TAG then IsMeta(meta) else IsMessage(PLAIN.(role := RoleUnknown("")))
    case MessageLine(m) => IsMessage(m)
  }

  predicate OneLine(s: string) {
    forall i :: 0 <= i < |s| ==> s[i] != '\n'
  }

  // Blank after trimming, or not a JSON value.
  predicate Torn(c: Codec, p: string) {
    c.trim(p) == "" || c.decode(c.trim(p)).Illegal?
  }

  // JSON objects are written on one line without surrounding space, read back as written, and no
  // strict prefix of one is JSON.
  ghost predicate Lawful(c: Codec) {
    && (forall r :: OneLine(c.encode(r)) && c.encode(r) != "" && c.trim(c.encode(r)) == c.encode(r))
    && (forall r :: c.decode(c.encode(r)) == Meaning(r))
    && (forall r, p :: p <= c.encode(r) && p != c.encode(r) ==> Torn(c, p))
  }

  // ---------------------------------------------------------------- loading

  datatype LoadError = TooLarge | IllegalJSON | BadRecord | InvalidMessage | BrokenPairing

  datatype Loaded = Loaded(meta: SessionMeta, msgs: seq<Message>) | Failed(error: LoadError)

  datatype Scan = Scan(corrupt: bool, meta: SessionMeta, msgs: seq<Message>) | Stopped(error: LoadError)

  const START := Scan(false, NO_META, [])

  // validateSessionMessage.
  predicate Loadable(m: Message) {
    m.role == RoleUser || m.role == RoleAssistant || (m.role == RoleTool && m.toolCallId != "")
  }

  function ScanLine(c: Codec, st: Scan, raw: string): Scan
    requires st.Scan?
  {
    var line := c.trim(raw);
    if line == "" then st
    else if st.corrupt then Stopped(IllegalJSON)
    else match c.decode(line)
      case Illegal => st.(corrupt := true)
      case BadMeta => Stopped(BadRecord)
      case BadMessage => Stopped(BadRecord)
      case IsMeta(meta) => st.(meta := meta)
      case IsMessage(m) => if Loadable(m) then st.(msgs := st.msgs + [m]) else Stopped(InvalidMessage)
  }

  function ScanLines(c: Codec, st: Scan, lines: seq<string>): Scan
    decreases |lines|
  {
    if lines == [] || st.Stopped? then st else ScanLines(c, ScanLine(c, st, lines[0]), lines[1..])
  }

  // bufio.ScanLines: the lines without their terminators, and a last line that has none.
  function RawLines(data: string): seq<string>
    decreases |data|
  {
    if data == "" then []
    else
      var i := FirstNewline(data);
      [data[..i]] + (if i == |data| then [] else RawLines(data[i+1..]))
  }

  ghost function Load(c: Codec, file: Option<string>, limit: nat): Loaded {
    if file.None? then Loaded(NO_META, [])
    else if |file.value| > limit then Failed(TooLarge)
    else match ScanLines(c, START, RawLines(file.value))
      case Stopped(e) => Failed(e)
      case Scan(_, meta, msgs) => if PairedById(msgs) then Loaded(meta, msgs) else Failed(BrokenPairing)
  }

  method LoadSession(c: Codec, file: Option<string>, limit: nat) returns (r: Loaded)
    ensures r == Load(c, file, limit)
  {
    if file.None? {
      return Loaded(NO_META, []);
    }
    if |file.value| > limit {
      return Failed(TooLarge);
    }
    var corrupt, meta, msgs := false, NO_META, [];
    var rest := RawLines(file.value);
    ghost var goal := ScanLines(c, START, rest);
    while rest != []
      invariant ScanLines(c, Scan(corrupt, meta, msgs), rest) == goal
      decreases |rest|
    {
      var line := c.trim(rest[0]);
      ghost var st := Scan(corrupt, meta, msgs);
      ScanStep(c, st, rest);
      rest := rest[1..];
      if line == "" {
        continue;
      }
      var decoded := c.decode(line);
      if decoded.Illegal? {
        if corrupt {
          return Failed(IllegalJSON);
        }
        corrupt := true;
        continue;
      }
      if corrupt {
        return Failed(IllegalJSON);
      }
      if decoded.BadMeta? || decoded.BadMessage? {
        return Failed(BadRecord);
      }
      if decoded.IsMeta? {
        meta := decoded.meta;
        continue;
      }
      if !Loadable(decoded.m) {
        return Failed(InvalidMessage);
      }
      msgs := msgs + [decoded.m];
    }
    var unpaired := ValidateToolPairing(msgs);
    r := if unpaired.Some? then Failed(BrokenPairing) else Loaded(meta, msgs);
  }

  lemma ScanStep(c: Codec, st: Scan, lines: seq<string>)
    requires lines != [] && st.Scan?
    ensures ScanLines(c, st, lines) == ScanLines(c, ScanLine(c, st, lines[0]), lines[1..])
    ensures ScanLine(c, st, lines[0]).Stopped? ==> ScanLines(c, st, lines) == ScanLine(c, st, lines[0])
  {
  }

  // ---------------------------------------------------------------- the text of a file

  function Text(c: Codec, records: seq<Record>): string {
    if records == [] then "" else c.encode(records[0]) + "\n" + Text(c, records[1..])
  }

  function Encoded(c: Codec, records: seq<Record>): (lines: seq<string>)
    ensures |lines| == |records| && forall i :: 0 <= i < |records| ==> lines[i] == c.encode(records[i])
  {
    seq(|records|, i requires 0 <= i < |records| => c.encode(records[i]))
  }

  lemma {:induction false} TextConcat(c: Codec, a: seq<Record>, b: seq<Record>)
    ensures Text(c, a + b) == Text(c, a) + Text(c, b)
    decreases |a|
  {
    if a == [] {
      assert a + b == b;
    } else {
      TextConcat(c, a[1..], b);
      ConsConcat(a, b);
      Assoc(c.encode(a[0]) + "\n", Text(c, a[1..]), Text(c, b));
    }
  }

  lemma RawLinesFirst(line: string, more: string)
    requires OneLine(line)
    ensures RawLines(line + "\n" + more) == [line] + RawLines(more)
  {
    var data := line + "\n" + more;
    assert data[|line|] == '\n' && forall j :: 0 <= j < |line| ==> data[j] == line[j];
    NewlineAt(data, |line|);
    assert data[..|line|] == line && data[|line|+1..] == more;
  }

  lemma RawLinesLast(line: string)
    requires OneLine(line)
    ensures RawLines(line) == if line == "" then [] else [line]
  {
    NoNewline(line);
    assert line[..|line|] == line;
  }

  function Last(tail: string): seq<string> {
    if tail == "" then [] else [tail]
  }

  lemma RawLinesStep(line: string, text: string, tail: string, lines: seq<string>)
    requires OneLine(line) && RawLines(text + tail) == lines + RawLines(tail)
    ensures RawLines((line + "\n" + text) + tail) == ([line] + lines) + RawLines(tail)
  {
    Assoc(line + "\n", text, tail);
    RawLinesFirst(line, text + tail);
    Assoc([line], lines, RawLines(tail));
  }

  lemma {:induction false} RawLinesAfter(c: Codec, records: seq<Record>, tail: string)
    requires Lawful(c)
    ensures RawLines(Text(c, records) + tail) == Encoded(c, records) + RawLines(tail)
    decreases |records|
  {
    if records == [] {
      assert Text(c, records) + tail == tail;
    } else {
      assert OneLine(c.encode(records[0]));
      RawLinesAfter(c, records[1..], tail);
      RawLinesStep(c.encode(records[0]), Text(c, records[1..]), tail, Encoded(c, records[1..]));
      assert Encoded(c, records) == [c.encode(records[0])] + Encoded(c, records[1..]);
    }
  }

  lemma RawLinesOfText(c: Codec, records: seq<Record>, tail: string)
    requires Lawful(c) && OneLine(tail)
    ensures RawLines(Text(c, records) + tail) == Encoded(c, records) + Last(tail)
  {
    RawLinesAfter(c, records, tail);
    RawLinesLast(tail);
  }

  // ---------------------------------------------------------------- records

  predicate Clean(r: Record) {
    match r
    case MetaLine(meta) => meta.tag == TAG
    case MessageLine(m) => Loadable(m)
  }

  function MessagesOf(records: seq<Record>): seq<Message> {
    if records == [] then []
    else (match records[0] case MetaLine(_) => [] case MessageLine(m) => [m]) + MessagesOf(records[1..])
  }

  function MetaOf(before: SessionMeta, records: seq<Record>): SessionMeta
    decreases |records|
  {
    if records == [] then before
    else MetaOf(match records[0] case MetaLine(meta) => meta case MessageLine(_) => before, records[1..])
  }

  function Seen(st: Scan, records: seq<Record>): Scan
    requires st.Scan?
  {
    Scan(st.corrupt, MetaOf(st.meta, records), st.msgs + MessagesOf(records))
  }

  lemma {:induction false} ScanRecords(c: Codec, st: Scan, records: seq<Record>, more: seq<string>)
    requires Lawful(c) && st.Scan? && !st.corrupt && forall i :: 0 <= i < |records| ==> Clean(records[i])
    ensures ScanLines(c, st, Encoded(c, records) + more) == ScanLines(c, Seen(st, records), more)
    decreases |records|
  {
    var lines := Encoded(c, records) + more;
    if records == [] {
      assert lines == more;
      assert Seen(st, records) == st;
    } else {
      var next := ScanLine(c, st, c.encode(records[0]));
      ScanStep(c, st, lines);
      assert lines[1..] == Encoded(c, records[1..]) + more;
      assert c.decode(c.encode(records[0])) == Meaning(records[0]);
      SeenOne(st, records[0]);
      assert next == Seen(st, [records[0]]);
      ScanRecords(c, next, records[1..], more);
      SeenStep(st, records);
    }
  }

  lemma SeenOne(st: Scan, r: Record)
    requires st.Scan?
    ensures Seen(st, [r]) == match r
              case MetaLine(meta) => st.(meta := meta)
              case MessageLine(m) => st.(msgs := st.msgs + [m])
  {
    assert [r][1..] == [];
    assert MessagesOf([r]) == match r case MetaLine(_) => [] case MessageLine(m) => [m];
    assert MetaOf(st.meta, [r]) == match r case MetaLine(meta) => meta case MessageLine(_) => st.meta;
  }

  lemma SeenStep(st: Scan, records: seq<Record>)
    requires st.Scan? && records != []
    ensures Seen(st, records) == Seen(Seen(st, [records[0]]), records[1..])
  {
    SeenOne(st, records[0]);
    var one := match records[0] case MetaLine(_) => [] case MessageLine(m) => [m];
    assert MessagesOf(records) == one + MessagesOf(records[1..]);
    Assoc(st.msgs, one, MessagesOf(records[1..]));
  }

  lemma {:induction false} ScanUnclean(c: Codec, st: Scan, records: seq<Record>, k: nat)
    requires Lawful(c) && st.Scan? && !st.corrupt && k < |records| && !Clean(records[k])
    ensures ScanLines(c, st, Encoded(c, records)).Stopped?
    decreases k
  {
    var lines := Encoded(c, records);
    ScanStep(c, st, lines);
    assert c.decode(c.encode(records[0])) == Meaning(records[0]);
    if Clean(records[0]) {
      assert lines[1..] == Encoded(c, records[1..]);
      ScanUnclean(c, ScanLine(c, st, lines[0]), records[1..], k - 1);
    }
  }

  // ---------------------------------------------------------------- what a log looks like

  // One metadata line, then messages.
  predicate Shaped(records: seq<Record>) {
    forall i :: 0 <= i < |records| ==> Clean(records[i]) && (records[i].MetaLine? <==> i == 0)
  }

  // A log that only appends have written, some of them cut off: whole records, and what got written
  // of one more (`next`), up to all of it but its newline.
  ghost predicate IsLog(c: Codec, data: string, records: seq<Record>, next: Record, torn: string) {
    && data == Text(c, records) + torn
    && torn <= c.encode(next)
    && Shaped(records + [next])
  }

  // The records that loading sees: the last one counts when only its newline is missing.
  function Readable(c: Codec, records: seq<Record>, next: Record, torn: string): seq<Record> {
    if torn == c.encode(next) then records + [next] else records
  }

  // Loading a log never reports illegal JSON: it returns the whole messages, or says that they are
  // not paired.
  lemma LoadLog(c: Codec, data: string, records: seq<Record>, next: Record, torn: string, limit: nat)
    requires Lawful(c) && IsLog(c, data, records, next, torn) && |data| <= limit
    ensures var seen := Readable(c, records, next, torn);
            Load(c, Some(data), limit) == if PairedById(MessagesOf(seen))
                then Loaded(MetaOf(NO_META, seen), MessagesOf(seen)) else Failed(BrokenPairing)
  {
    CleanParts(records, next);
    if torn == c.encode(next) {
      ScanWhole(c, records, next);
    } else {
      ScanLog(c, records, next, torn);
    }
  }

  lemma CleanParts(records: seq<Record>, next: Record)
    requires Shaped(records + [next])
    ensures Clean(next) && Shaped(records)
  {
    assert forall i :: 0 <= i < |records| ==> records[i] == (records + [next])[i];
    assert next == (records + [next])[|records|];
  }

  // What scanning ends with, up to the flag for a torn last line.
  predicate Reads(st: Scan, seen: seq<Record>) {
    st.Scan? && st.meta == MetaOf(NO_META, seen) && st.msgs == MessagesOf(seen)
  }

  lemma ScanWhole(c: Codec, records: seq<Record>, next: Record)
    requires Lawful(c) && Shaped(records + [next])
    ensures Reads(ScanLines(c, START, RawLines(Text(c, records) + c.encode(next))), records + [next])
  {
    assert OneLine(c.encode(next)) && c.encode(next) != "";
    RawLinesOfText(c, records, c.encode(next));
    var all := Encoded(c, records + [next]);
    assert all == Encoded(c, records) + [c.encode(next)] && all + [] == all;
    ScanRecords(c, START, records + [next], []);
  }

  lemma ScanLog(c: Codec, records: seq<Record>, next: Record, torn: string)
    requires Lawful(c) && Shaped(records) && torn <= c.encode(next) && torn != c.encode(next)
    ensures Reads(ScanLines(c, START, RawLines(Text(c, records) + torn)), records)
  {
    assert OneLine(c.encode(next));
    RawLinesOfText(c, records, torn);
    ScanRecords(c, START, records, Last(torn));
    ScanTorn(c, Seen(START, records), torn);
    assert [] + MessagesOf(records) == MessagesOf(records);
  }

  lemma ScanTorn(c: Codec, st: Scan, torn: string)
    requires st.Scan? && !st.corrupt && Torn(c, torn)
    ensures ScanLines(c, st, []) == st
    ensures ScanLines(c, st, [torn]).Scan? && ScanLines(c, st, [torn]).meta == st.meta
    ensures ScanLines(c, st, [torn]).msgs == st.msgs
  {
    ScanStep(c, st, [torn]);
    assert [torn][1..] == [];
  }

  // A line that is no JSON is an accident of the last append only when nothing but blank lines follow
  // it: otherwise the file is corrupt.
  lemma CorruptInside(c: Codec, records: seq<Record>, bad: string, more: string, limit: nat)
    requires Lawful(c) && Shaped(records) && OneLine(bad) && OneLine(more)
    requires c.trim(bad) != "" && c.decode(c.trim(bad)).Illegal?
    requires |Text(c, records) + (bad + "\n" + more)| <= limit
    ensures var r := Load(c, Some(Text(c, records) + (bad + "\n" + more)), limit);
            if more != "" && c.trim(more) != "" then r == Failed(IllegalJSON)
            else if PairedById(MessagesOf(records)) then r == Loaded(MetaOf(NO_META, records), MessagesOf(records))
            else r == Failed(BrokenPairing)
  {
    hide Text, RawLines, ScanLines, PairedById;
    RawLinesFirst(bad, more);
    RawLinesLast(more);
    RawLinesAfter(c, records, bad + "\n" + more);
    ScanRecords(c, START, records, [bad] + Last(more));
    ScanBad(c, Seen(START, records), bad, more);
    assert [] + MessagesOf(records) == MessagesOf(records);
  }

  lemma ScanBad(c: Codec, st: Scan, bad: string, more: string)
    requires st.Scan? && !st.corrupt && c.trim(bad) != "" && c.decode(c.trim(bad)).Illegal?
    ensures ScanLines(c, st, [bad] + Last(more))
            == if more == "" || c.trim(more) == "" then st.(corrupt := true) else Stopped(IllegalJSON)
  {
    ScanStep(c, st, [bad] + Last(more));
    assert ([bad] + Last(more))[1..] == Last(more);
    if more != "" {
      ScanStep(c, st.(corrupt := true), [more]);
      assert [more][1..] == [];
    }
  }

  ghost predicate Unloadable(m: Message) {
    && m.role != RoleUser && m.role != RoleAssistant
    && (m.role == RoleTool ==> m.toolCallId == "")
  }

  // Any other line that is no record, or a message that may not be loaded, is an error where it stands.
  lemma BadLine(c: Codec, records: seq<Record>, bad: string, more: string, limit: nat)
    requires Lawful(c) && Shaped(records) && OneLine(bad) && c.trim(bad) != ""
    requires |Text(c, records) + (bad + "\n" + more)| <= limit
    ensures c.decode(c.trim(bad)).BadMeta? || c.decode(c.trim(bad)).BadMessage? ==>
              Load(c, Some(Text(c, records) + (bad + "\n" + more)), limit) == Failed(BadRecord)
    ensures c.decode(c.trim(bad)).IsMessage? && Unloadable(c.decode(c.trim(bad)).m) ==>
              Load(c, Some(Text(c, records) + (bad + "\n" + more)), limit) == Failed(InvalidMessage)
  {
    hide Text, RawLines, PairedById;
    RawLinesFirst(bad, more);
    RawLinesAfter(c, records, bad + "\n" + more);
    ScanRecords(c, START, records, [bad] + RawLines(more));
    ScanStep(c, Seen(START, records), [bad] + RawLines(more));
  }

  lemma NoFileOrTooLarge(c: Codec, data: string, limit: nat)
    ensures Load(c, None, limit) == Loaded(SessionMeta("", ""), [])
    ensures |data| > limit ==> Load(c, Some(data), limit) == Failed(TooLarge)
  {
  }

  // ---------------------------------------------------------------- appending

  // What ensureTrailingNewline leaves: everything up to the last newline.
  function Heal(data: string): string {
    if data == "" || data[|data|-1] == '\n' then data else Heal(data[..|data|-1])
  }

  function Tagged(meta: SessionMeta): SessionMeta {
    if meta.tag == "" then meta.(tag := TAG) else meta
  }

  function MessageLines(msgs: seq<Message>): (records: seq<Record>)
    ensures |records| == |msgs| && forall i :: 0 <= i < |msgs| ==> records[i] == MessageLine(msgs[i])
  {
    seq(|msgs|, i requires 0 <= i < |msgs| => MessageLine(msgs[i]))
  }

  // The pending records: the metadata line comes first in an empty file.
  function Pending(empty: bool, meta: SessionMeta, msgs: seq<Message>): seq<Record> {
    (if empty then [MetaLine(Tagged(meta))] else []) + MessageLines(msgs)
  }

  // The file after an append of which `reach` bytes get written before the process dies; all of them
  // if it does not.
  function Appended(c: Codec, data: string, meta: SessionMeta, msgs: seq<Message>, limit: nat, reach: nat): string {
    if msgs == [] || |data| > limit then data
    else
      var healed := Heal(data);
      var buf := Text(c, Pending(healed == "", meta, msgs));
      if |healed| + |buf| > limit then healed
      else healed + buf[..if reach < |buf| then reach else |buf|]
  }

  lemma {:induction false} HealOf(whole: string, torn: string)
    requires whole == "" || whole[|whole|-1] == '\n'
    requires OneLine(torn)
    ensures Heal(whole + torn) == whole
    decreases |torn|
  {
    if torn == "" {
      assert whole + torn == whole;
    } else {
      var n := |torn| - 1;
      assert (whole + torn)[|whole + torn|-1] == torn[n];
      assert (whole + torn)[..|whole + torn|-1] == whole + torn[..n];
      HealOf(whole, torn[..n]);
    }
  }

  // It is the longest prefix that is empty or ends with a newline.
  lemma {:induction false} HealKeepsLines(data: string)
    ensures Heal(data) <= data && EndsLine(Heal(data)) && OneLine(data[|Heal(data)|..])
    decreases |data|
  {
    if data != "" && data[|data|-1] != '\n' {
      var n := |data| - 1;
      HealKeepsLines(data[..n]);
      var kept := |Heal(data)|;
      assert data[kept..] == data[..n][kept..] + [data[n]];
    }
  }

  predicate EndsLine(s: string) {
    s == "" || s[|s|-1] == '\n'
  }

  // What an append writes: each message on a line of its own, in their order, and in front of them, in
  // an empty file, the metadata, tagged as such where it has no tag.
  lemma PendingText(c: Codec, empty: bool, meta: SessionMeta, msgs: seq<Message>, m: Message)
    ensures Text(c, Pending(false, meta, [])) == ""
    ensures Text(c, Pending(true, meta, []))
            == c.encode(MetaLine(if meta.tag == "" then SessionMeta("session", meta.fields) else meta)) + "\n"
    ensures Text(c, Pending(empty, meta, msgs + [m]))
            == Text(c, Pending(empty, meta, msgs)) + c.encode(MessageLine(m)) + "\n"
  {
    var one: seq<Record> := [MessageLine(m)];
    assert one[1..] == [];
    assert Pending(empty, meta, msgs + [m]) == Pending(empty, meta, msgs) + one;
    TextConcat(c, Pending(empty, meta, msgs), one);
    var first: seq<Record> := [MetaLine(Tagged(meta))];
    assert first[1..] == [] && Pending(true, meta, []) == first && Pending(false, meta, []) == [];
  }

  lemma {:induction false} TextEnds(c: Codec, records: seq<Record>)
    ensures Text(c, records) == "" <==> records == []
    ensures records != [] ==> Text(c, records)[|Text(c, records)|-1] == '\n'
    decreases |records|
  {
    if records == [] {
    } else {
      TextEnds(c, records[1..]);
    }
  }

  // Cut anywhere, the text of some records is the text of the first of them and a part of the next.
  lemma {:induction false} CutText(c: Codec, records: seq<Record>, n: nat) returns (k: nat, torn: string)
    requires n <= |Text(c, records)|
    ensures k <= |records| && Text(c, records)[..n] == Text(c, records[..k]) + torn
    ensures if k < |records| then torn <= c.encode(records[k]) else torn == ""
    ensures n == |Text(c, records)| ==> k == |records|
    decreases |records|
  {
    if records == [] {
      k, torn := 0, "";
    } else {
      var line := c.encode(records[0]);
      var more := Text(c, records[1..]);
      assert Text(c, records) == line + "\n" + more;
      if n <= |line| {
        k, torn := 0, line[..n];
        assert Text(c, records)[..n] == "" + torn;
      } else {
        k, torn := CutText(c, records[1..], n - |line| - 1);
        k := k + 1;
        assert records[..k][1..] == records[1..][..k-1];
        assert Text(c, records)[..n] == line + "\n" + more[..n - |line| - 1];
        assert Text(c, records[..k]) == line + "\n" + Text(c, records[..k][1..]);
        assert (line + "\n") + (Text(c, records[1..][..k-1]) + torn) == ((line + "\n") + Text(c, records[1..][..k-1]))
            + torn;
      }
    }
  }

  ghost predicate AllLoadable(msgs: seq<Message>) {
    forall m :: m in msgs ==> Loadable(m)
  }

  lemma PendingShaped(records: seq<Record>, meta: SessionMeta, msgs: seq<Message>)
    requires Shaped(records) && AllLoadable(msgs) && Tagged(meta).tag == TAG
    ensures Shaped(records + Pending(records == [], meta, msgs))
  {
    var added := Pending(records == [], meta, msgs);
    forall i | 0 <= i < |records + added| ensures Clean((records + added)[i])
        && ((records + added)[i].MetaLine? <==> i == 0) {
      if i >= |records| {
        var j := i - |records| - (if records == [] then 1 else 0);
        assert j >= 0 ==> (records + added)[i] == MessageLine(msgs[j]) && msgs[j] in msgs;
      }
    }
  }

  // An append, cut off or not, makes a log of a log: it heals it and adds whole records and at most
  // one part of a record.
  lemma AppendKeepsLog(c: Codec, data: string, records: seq<Record>, next: Record, torn: string,
                       meta: SessionMeta, msgs: seq<Message>, limit: nat, reach: nat)
      returns (k: nat, next': Record, torn': string)
    requires Lawful(c) && IsLog(c, data, records, next, torn)
    requires AllLoadable(msgs) && Tagged(meta).tag == TAG && msgs != [] && |data| <= limit
    ensures k <= |Pending(records == [], meta, msgs)|
    ensures IsLog(c, Appended(c, data, meta, msgs, limit, reach), records
              + Pending(records == [], meta, msgs)[..k], next', torn')
    ensures k < |Pending(records == [], meta, msgs)| ==> next' == Pending(records == [], meta, msgs)[k]
    ensures k == |Pending(records == [], meta, msgs)| ==> torn' == ""
    ensures |Text(c, records)| + |Text(c, Pending(records == [], meta, msgs))| <= limit
            && reach >= |Text(c, Pending(records == [], meta, msgs))|
            ==> k == |Pending(records == [], meta, msgs)|
    ensures |Appended(c, data, meta, msgs, limit, reach)| <= limit
  {
    hide Text, Shaped, Heal;
    var added := Pending(records == [], meta, msgs);
    var buf := Text(c, added);
    assert OneLine(c.encode(next));
    TextEnds(c, records);
    HealOf(Text(c, records), torn);
    CleanParts(records, next);
    PendingShaped(records, meta, msgs);
    var n := if |Text(c, records)| + |buf| > limit then 0 else if reach < |buf| then reach else |buf|;
    k, torn' := CutText(c, added, n);
    next' := if k < |added| then added[k] else MessageLine(PLAIN);
    TextConcat(c, records, added[..k]);
    assert Text(c, records) + buf[..n] == Text(c, records + added[..k]) + torn' by {
      assert Text(c, records) + (Text(c, added[..k]) + torn') == (Text(c, records) + Text(c, added[..k])) + torn';
    }
    assert buf[..0] == "";
    NextShaped(records, added, k, next');
  }

  lemma NextShaped(records: seq<Record>, more: seq<Record>, k: nat, next: Record)
    requires Shaped(records + more) && k <= |more| && (records + more) != []
    requires next == if k < |more| then more[k] else MessageLine(PLAIN)
    ensures Shaped((records + more[..k]) + [next])
  {
    var all := (records + more[..k]) + [next];
    forall i | 0 <= i < |all| ensures Clean(all[i]) && (all[i].MetaLine? <==> i == 0) {
      if i < |records + more| {
        assert Clean((records + more)[i]);
        assert all[i] == (records + more)[i];
      }
    }
  }

  // ---------------------------------------------------------------- crash safety

  datatype Save = Save(meta: SessionMeta, msgs: seq<Message>, reach: nat)

  function AfterSaves(c: Codec, saves: seq<Save>, limit: nat): string {
    if saves == [] then ""
    else
      var last := saves[|saves|-1];
      Appended(c, AfterSaves(c, saves[..|saves|-1], limit), last.meta, last.msgs, limit, last.reach)
  }

  ghost predicate Storable(s: Save) {
    AllLoadable(s.msgs) && Tagged(s.meta).tag == TAG
  }

  // After any number of appends, each cut off at any byte, the file is a log ...
  lemma {:induction false} SavesMakeALog(c: Codec, saves: seq<Save>, limit: nat)
      returns (records: seq<Record>, next: Record, torn: string)
    requires Lawful(c) && forall s :: s in saves ==> Storable(s)
    ensures IsLog(c, AfterSaves(c, saves, limit), records, next, torn)
    ensures |AfterSaves(c, saves, limit)| <= limit
    decreases |saves|
  {
    if saves == [] {
      records, next, torn := [], MetaLine(SessionMeta(TAG, "")), "";
    } else {
      var before, last := saves[..|saves|-1], saves[|saves|-1];
      records, next, torn := SavesMakeALog(c, before, limit);
      if last.msgs != [] {
        assert Storable(last);
        var k, next', torn' := AppendKeepsLog(c, AfterSaves(c, before, limit), records, next, torn, last.meta,
            last.msgs, limit, last.reach);
        records, next, torn := records + Pending(records == [], last.meta, last.msgs)[..k], next', torn';
      }
    }
  }

  // ... and loading it never reports corruption: it returns messages, or says they are not paired.
  lemma NeverCorrupt(c: Codec, saves: seq<Save>, limit: nat)
    requires Lawful(c) && forall s :: s in saves ==> Storable(s)
    ensures Load(c, Some(AfterSaves(c, saves, limit)), limit).Loaded?
            || Load(c, Some(AfterSaves(c, saves, limit)), limit) == Failed(BrokenPairing)
  {
    var records, next, torn := SavesMakeALog(c, saves, limit);
    LoadLog(c, AfterSaves(c, saves, limit), records, next, torn, limit);
  }

  lemma {:induction false} MessagesOfConcat(a: seq<Record>, b: seq<Record>)
    ensures MessagesOf(a + b) == MessagesOf(a) + MessagesOf(b)
    decreases |a|
  {
    if a == [] {
      assert a + b == b;
    } else {
      MessagesOfConcat(a[1..], b);
      ConsConcat(a, b);
      Assoc(match a[0] case MetaLine(_) => [] case MessageLine(m) => [m], MessagesOf(a[1..]), MessagesOf(b));
    }
  }

  lemma {:induction false} MessagesOfLines(msgs: seq<Message>)
    ensures MessagesOf(MessageLines(msgs)) == msgs
    decreases |msgs|
  {
    if msgs == [] {
    } else {
      MessagesOfLines(msgs[1..]);
      assert MessageLines(msgs)[1..] == MessageLines(msgs[1..]);
    }
  }

  // The first k pending records carry a prefix of the messages.
  lemma PendingMessages(empty: bool, meta: SessionMeta, msgs: seq<Message>, k: nat) returns (j: nat)
    requires k <= |Pending(empty, meta, msgs)|
    ensures j <= |msgs| && MessagesOf(Pending(empty, meta, msgs)[..k]) == msgs[..j]
    ensures k == |Pending(empty, meta, msgs)| ==> j == |msgs|
  {
    var head := if empty then 1 else 0;
    j := if k < head then 0 else k - head;
    if k < head {
      assert Pending(empty, meta, msgs)[..k] == [];
    } else {
      var metas := if empty then [MetaLine(Tagged(meta))] else [];
      assert Pending(empty, meta, msgs)[..k] == metas + MessageLines(msgs[..j]);
      MessagesOfConcat(metas, MessageLines(msgs[..j]));
      MessagesOfLines(msgs[..j]);
      assert metas != [] ==> metas[1..] == [];
      assert MessagesOf(metas) == [];
    }
  }

  // One crash, at any byte of an append to a log that ends with a whole line: loading returns the old
  // messages and a prefix of the new ones, message by message, or says that these are not paired.
  // Without a crash all new messages are there.
  lemma OneCrash(c: Codec, records: seq<Record>, s: Save, limit: nat) returns (j: nat)
    requires Lawful(c) && Shaped(records) && |Text(c, records)| <= limit && Storable(s)
    ensures j <= |s.msgs|
    ensures var seen := MessagesOf(records) + s.msgs[..j];
            var r := Load(c, Some(Appended(c, Text(c, records), s.meta, s.msgs, limit, s.reach)), limit);
            if PairedById(seen) then r.Loaded? && r.msgs == seen else r == Failed(BrokenPairing)
    ensures var buf := Text(c, Pending(records == [], s.meta, s.msgs));
            |Text(c, records)| + |buf| <= limit && s.reach >= |buf| ==> j == |s.msgs|
  {
    var next := if records == [] then MetaLine(SessionMeta(TAG, "")) else MessageLine(PLAIN);
    assert IsLog(c, Text(c, records), records, next, "") by {
      assert Text(c, records) + "" == Text(c, records);
    }
    if s.msgs == [] {
      j := 0;
      LoadLog(c, Text(c, records), records, next, "", limit);
      assert MessagesOf(records) + [] == MessagesOf(records);
    } else {
      var added := Pending(records == [], s.meta, s.msgs);
      var k, next', torn' := AppendKeepsLog(c, Text(c, records), records, next, "", s.meta, s.msgs, limit, s.reach);
      var file := Appended(c, Text(c, records), s.meta, s.msgs, limit, s.reach);
      LoadLog(c, file, records + added[..k], next', torn', limit);
      var read := ReadableAdded(c, records, added, k, next', torn');
      j := PendingMessages(records == [], s.meta, s.msgs, read);
    }
  }

  lemma ReadableAdded(c: Codec, records: seq<Record>, added: seq<Record>, k: nat, next: Record, torn: string)
      returns (read: nat)
    requires Lawful(c) && k <= |added|
    requires if k < |added| then next == added[k] else torn == ""
    ensures k <= read <= |added|
    ensures MessagesOf(Readable(c, records + added[..k], next, torn)) == MessagesOf(records) + MessagesOf(added[..read])
  {
    assert c.encode(next) != "";
    read := if torn == c.encode(next) then k + 1 else k;
    assert read > k ==> added[..read] == added[..k] + [next];
    assert Readable(c, records + added[..k], next, torn) == records + added[..read];
    MessagesOfConcat(records, added[..read]);
  }

  // A file whose last record lacks only its newline is loaded with that record, but the next append
  // heals it away.  Exactly then does healing change what loading returns, unless the messages are
  // unpaired with the record and without it.
  lemma HealingDropsTheUnterminated(c: Codec, data: string, records: seq<Record>, next: Record, torn: string,
        limit: nat)
    requires Lawful(c) && IsLog(c, data, records, next, torn) && |data| <= limit
    ensures Heal(data) == Text(c, records)
    ensures Load(c, Some(Heal(data)), limit) == Load(c, Some(data), limit)
            <==> torn != c.encode(next)
                 || (!PairedById(MessagesOf(records)) && !PairedById(MessagesOf(records + [next])))
  {
    LoadHealed(c, data, records, next, torn, limit);
    LoadLog(c, data, records, next, torn, limit);
    if torn == c.encode(next) {
      OneMoreRecord(records, next);
    }
  }

  lemma LoadHealed(c: Codec, data: string, records: seq<Record>, next: Record, torn: string, limit: nat)
    requires Lawful(c) && IsLog(c, data, records, next, torn) && |data| <= limit
    ensures Heal(data) == Text(c, records)
    ensures Load(c, Some(Heal(data)), limit)
            == if PairedById(MessagesOf(records)) then Loaded(MetaOf(NO_META, records), MessagesOf(records))
                else Failed(BrokenPairing)
  {
    assert OneLine(c.encode(next)) && c.encode(next) != "";
    TextEnds(c, records);
    HealOf(Text(c, records), torn);
    assert IsLog(c, Text(c, records), records, next, "") by {
      assert Text(c, records) + "" == Text(c, records);
    }
    LoadLog(c, Text(c, records), records, next, "", limit);
  }

  // A record more is never the same: it is the metadata, or a message.
  lemma OneMoreRecord(records: seq<Record>, next: Record)
    requires Shaped(records + [next])
    ensures MetaOf(NO_META, records + [next]) != MetaOf(NO_META, records)
            || MessagesOf(records + [next]) != MessagesOf(records)
  {
    MessagesOfConcat(records, [next]);
    assert [next][1..] == [];
    assert next == (records + [next])[|records|];
    if next.MetaLine? {
      assert records == [];
      assert [] + [next] == [next];
      assert MetaOf(NO_META, [next]) == next.meta;
    } else {
      assert |MessagesOf(records + [next])| == |MessagesOf(records)| + 1;
    }
  }

  // How a session is lost that way: a call was saved whole and its result but for the newline.  The
  // file loads; once the next append has healed it, the call has no result and loading fails.
  lemma HealingBreaksASession(c: Codec, meta: SessionMeta, limit: nat) returns (records: seq<Record>, result: Record)
    requires Lawful(c) && meta.tag == TAG
    ensures |records| == 2 && records[0] == MetaLine(meta) && result.MessageLine? && result.m.role == RoleTool
    ensures var data := Text(c, records) + c.encode(result);
            |data| <= limit ==>
              && Load(c, Some(data), limit) == Loaded(meta, MessagesOf(records + [result]))
              && Load(c, Some(Heal(data)), limit) == Failed(BrokenPairing)
  {
    var call := PLAIN.(role := RoleAssistant, toolCalls := [ToolCall("a", "shell", "")]);
    var answer := PLAIN.(role := RoleTool, toolCallId := "a");
    records, result := [MetaLine(meta), MessageLine(call)], MessageLine(answer);
    var data := Text(c, records) + c.encode(result);
    OpenCall(meta, call, answer);
    if |data| <= limit {
      LoadLog(c, data, records, result, c.encode(result), limit);
      LoadHealed(c, data, records, result, c.encode(result), limit);
    }
  }

  lemma OpenCall(meta: SessionMeta, call: Message, answer: Message)
    requires meta.tag == TAG
    requires call == PLAIN.(role := RoleAssistant, toolCalls := [ToolCall("a", "shell", "")])
    requires answer == PLAIN.(role := RoleTool, toolCallId := "a")
    ensures var records := [MetaLine(meta), MessageLine(call)];
            && Shaped(records + [MessageLine(answer)])
            && !PairedById(MessagesOf(records)) && PairedById(MessagesOf(records + [MessageLine(answer)]))
            && MetaOf(NO_META, records + [MessageLine(answer)]) == meta
  {
    hide MessagesOf, MetaOf, PairedById;
    var records := [MetaLine(meta), MessageLine(call)];
    assert records == [MetaLine(meta)] + MessageLines([call]);
    assert records + [MessageLine(answer)] == [MetaLine(meta)] + MessageLines([call, answer]);
    BehindMeta(meta, [call]);
    BehindMeta(meta, [call, answer]);
    OpenBlock([call, answer]);
  }

  lemma BehindMeta(meta: SessionMeta, msgs: seq<Message>)
    ensures var records := [MetaLine(meta)] + MessageLines(msgs);
            MessagesOf(records) == msgs && MetaOf(NO_META, records) == meta
  {
    var records := [MetaLine(meta)] + MessageLines(msgs);
    assert records[1..] == MessageLines(msgs);
    MessagesOfLines(msgs);
    MetaOfMessages(meta, msgs);
    assert MessagesOf(records) == [] + msgs;
  }

  lemma OpenBlock(block: seq<Message>)
    requires IsBlock(block) && |block| == 2
    ensures !PairedById([block[0]]) && PairedById(block)
  {
    hide PairedById;
    BrokenOffBlock([], block, 1);
    BrokenOffBlock([], block, 2);
    assert [] + block[..1] == [block[0]] && [] + block[..2] == block;
  }

  // ---------------------------------------------------------------- rewriting

  function RewriteText(c: Codec, meta: SessionMeta, msgs: seq<Message>): string {
    Text(c, Pending(true, meta, msgs))
  }

  // Loading what a rewrite wrote gives back the same messages exactly if they may be loaded, are
  // paired, the metadata is tagged as such and the text is within the limit.
  lemma RewriteRoundTrip(c: Codec, meta: SessionMeta, msgs: seq<Message>, limit: nat)
    requires Lawful(c)
    ensures Load(c, Some(RewriteText(c, meta, msgs)), limit) == Loaded(Tagged(meta), msgs)
            <==> Tagged(meta).tag == TAG && AllLoadable(msgs) && PairedById(msgs)
                 && |RewriteText(c, meta, msgs)| <= limit
  {
    var records := Pending(true, meta, msgs);
    RawLinesOfText(c, records, "");
    assert Text(c, records) + "" == Text(c, records) && Encoded(c, records) + [] == Encoded(c, records);
    if k :| 0 <= k < |records| && !Clean(records[k]) {
      ScanUnclean(c, START, records, k);
      assert k > 0 ==> records[k].m in msgs;
    } else {
      ScanRewritten(c, meta, msgs);
    }
  }

  lemma ScanRewritten(c: Codec, meta: SessionMeta, msgs: seq<Message>)
    requires Lawful(c) && forall k :: 0 <= k <= |msgs| ==> Clean(Pending(true, meta, msgs)[k])
    ensures Tagged(meta).tag == TAG && AllLoadable(msgs)
    ensures ScanLines(c, START, Encoded(c, Pending(true, meta, msgs))) == Scan(false, Tagged(meta), msgs)
  {
    var records := Pending(true, meta, msgs);
    assert Clean(records[0]);
    forall m | m in msgs ensures Loadable(m) {
      var i :| 0 <= i < |msgs| && msgs[i] == m;
      assert Clean(records[i+1]) && records[i+1] == MessageLine(m);
    }
    assert Encoded(c, records) + [] == Encoded(c, records);
    ScanRecords(c, START, records, []);
    assert records[0] == MetaLine(Tagged(meta)) && records[1..] == MessageLines(msgs);
    MessagesOfLines(msgs);
    MetaOfMessages(Tagged(meta), msgs);
    assert MessagesOf(records) == [] + msgs;
  }

  lemma {:induction false} MetaOfMessages(meta: SessionMeta, msgs: seq<Message>)
    ensures MetaOf(meta, MessageLines(msgs)) == meta
    decreases |msgs|
  {
    if msgs == [] {
    } else {
      MetaOfMessages(meta, msgs[1..]);
      assert MessageLines(msgs)[1..] == MessageLines(msgs[1..]);
    }
  }

  // ---------------------------------------------------------------- the file

  datatype SaveError = OverLimit | WouldExceed

  class SessionFile {
    var data: string

    constructor (data: string)
      ensures this.data == data
    {
      this.data := data;
    }

    method EnsureTrailingNewline()
      modifies this
      ensures data == Heal(old(data))
      ensures data <= old(data) && EndsLine(data) && OneLine(old(data)[|data|..])
    {
      HealKeepsLines(data);
      if |data| == 0 || data[|data|-1] == '\n' {
        return;
      }
      var cutAt := |data|;
      assert data[..|data|] == data;
      while cutAt > 0 && data[cutAt-1] != '\n'
        invariant 0 <= cutAt <= |data| && Heal(data[..cutAt]) == Heal(data)
      {
        assert data[..cutAt][..cutAt-1] == data[..cutAt-1];
        cutAt := cutAt - 1;
      }
      data := data[..cutAt];
    }

    // reach is how many of the pending bytes get written before the process dies.
    method AppendMessages(c: Codec, meta: SessionMeta, msgs: seq<Message>, limit: nat, reach: nat)
        returns (err: Option<SaveError>)
      modifies this
      ensures data == Appended(c, old(data), meta, msgs, limit, reach)
      ensures err == Some(OverLimit) <==> msgs != [] && |old(data)| > limit
      ensures err == Some(WouldExceed)
              <==> msgs != [] && |old(data)| <= limit
                   && |Heal(old(data)) + Text(c, Pending(Heal(old(data)) == "", meta, msgs))| > limit
      ensures err == Some(OverLimit) || msgs == [] ==> data == old(data)
      ensures err == Some(WouldExceed) ==> data == Heal(old(data))
      ensures err.None? && msgs != [] ==>
                var text := Text(c, Pending(Heal(old(data)) == "", meta, msgs));
                && Heal(old(data)) <= data <= Heal(old(data)) + text
                && |data| == |Heal(old(data))| + (if reach < |text| then reach else |text|)
                && (reach >= |text| ==> data == Heal(old(data)) + text)
    {
      err := None;
      if |msgs| == 0 {
        return;
      }
      if |data| > limit {
        return Some(OverLimit);
      }
      EnsureTrailingNewline();
      var records: seq<Record> := [];
      if |data| == 0 {
        records := [MetaLine(if meta.tag == "" then meta.(tag := TAG) else meta)];
      }
      records := records + MessageLines(msgs);
      assert records == Pending(data == "", meta, msgs);
      var buf := WriteText(c, records);
      if |data| + |buf| > limit {
        return Some(WouldExceed);
      }
      data := data + buf[..if reach < |buf| then reach else |buf|];
    }

    // The temporary file is swapped in by one rename: a crash leaves the old text or the new one.
    method RewriteMessages(c: Codec, meta: SessionMeta, msgs: seq<Message>, limit: nat, renamed: bool)
        returns (err: Option<SaveError>)
      modifies this
      ensures err == if |RewriteText(c, meta, msgs)| > limit then Some(WouldExceed) else None
      ensures data == if err.None? && renamed then RewriteText(c, meta, msgs) else old(data)
    {
      var records := [MetaLine(if meta.tag == "" then meta.(tag := TAG) else meta)] + MessageLines(msgs);
      assert records == Pending(true, meta, msgs);
      var buf := WriteText(c, records);
      err := None;
      if |buf| > limit {
        return Some(WouldExceed);
      }
      if renamed {
        data := buf;
      }
    }
  }

  method WriteText(c: Codec, records: seq<Record>) returns (buf: string)
    ensures buf == Text(c, records)
  {
    buf := "";
    var rest := records;
    while rest != []
      invariant buf + Text(c, rest) == Text(c, records)
      decreases |rest|
    {
      buf := buf + c.encode(rest[0]) + "\n";
      rest := rest[1..];
    }
  }
}
