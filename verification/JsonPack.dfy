/** The compact JSON context document: serialization, the streamed assembly around the excerpt array,
    and its length. */
module JsonPack {
  import opened Text
  import opened Anchor
  import opened Wrappers
  import opened Packer
  import opened PackerBudget
  import opened Scenarios
  import PackerGrown
  import Prose

  datatype Json =
    | JNull
    | JBool(b: bool)
    | JNum(n: int)
    | JStr(s: string)
    | JArr(items: seq<Json>)
    | JObj(members: seq<Member>)

  datatype Member = Member(key: string, value: Json)

  // ---------- strings ----------

  /** Characters a JSON string holds as they are (section 7 of RFC 8259; nothing beyond ASCII is escaped). */
  predicate Plain(c: char) {
    c >= ' ' && c != '\"' && c != '\\'
  }

  function HexDigit(d: nat): char
    requires d < 16
  {
    if d < 10 then ('0' as int + d) as char else ('a' as int + (d - 10)) as char
  }

  function HexValue(c: char): Option<nat> {
    if '0' <= c <= '9' then Some(c as int - '0' as int)
    else if 'a' <= c <= 'f' then Some(c as int - 'a' as int + 10)
    else None
  }

  function EscapeChar(c: char): (r: string)
    ensures |r| >= 1
  {
    if c == '\"' then ['\\', '\"']
    else if c == '\\' then ['\\', '\\']
    else if c == '\n' then ['\\', 'n']
    else if c == '\r' then ['\\', 'r']
    else if c == '\t' then ['\\', 't']
    else if c == '\U{8}' then ['\\', 'b']
    else if c == '\U{C}' then ['\\', 'f']
    else if c < ' ' then ['\\', 'u', '0', '0', HexDigit(c as int / 16), HexDigit(c as int % 16)]
    else [c]
  }

  function Escape(s: string): string {
    if s == "" then "" else EscapeChar(s[0]) + Escape(s[1..])
  }

  function Quote(s: string): string {
    ['\"'] + Escape(s) + ['\"']
  }

  /** The escapes of section 7 of RFC 8259, the short ones where there is one. */
  lemma EscapeNames()
    ensures EscapeChar('\"') == "\\\"" && EscapeChar('\\') == "\\\\"
    ensures EscapeChar('\n') == "\\n" && EscapeChar('\r') == "\\r" && EscapeChar('\t') == "\\t"
    ensures EscapeChar('\U{8}') == "\\b" && EscapeChar('\U{C}') == "\\f"
    ensures EscapeChar('\U{0}') == "\\u0000" && EscapeChar('\U{1B}') == "\\u001b"
  {
  }

  // ---------- documents ----------

  /** `json.dumps(value, ensure_ascii=False, separators=(",", ":"))`. */
  function Compact(v: Json): string {
    match v
    case JNull => "null"
    case JBool(b) => if b then "true" else "false"
    case JNum(n) => Str(n)
    case JStr(s) => Quote(s)
    case JArr(items) => "[" + Join(",", seq(|items|, i requires 0 <= i < |items| => Compact(items[i]))) + "]"
    case JObj(ms) =>
      "{" + Join(",", seq(|ms|, i requires 0 <= i < |ms| => Quote(ms[i].key) + ":" + Compact(ms[i].value))) + "}"
  }

  function CompactAll(items: seq<Json>): (r: seq<string>)
    ensures |r| == |items|
  {
    seq(|items|, i requires 0 <= i < |items| => Compact(items[i]))
  }

  function CompactMember(m: Member): string {
    Quote(m.key) + ":" + Compact(m.value)
  }

  function CompactMembers(ms: seq<Member>): (r: seq<string>)
    ensures |r| == |ms|
  {
    seq(|ms|, i requires 0 <= i < |ms| => CompactMember(ms[i]))
  }

  lemma CompactArr(items: seq<Json>)
    ensures Compact(JArr(items)) == "[" + Join(",", CompactAll(items)) + "]"
  {
    assert CompactAll(items) == seq(|items|, i requires 0 <= i < |items| => Compact(items[i]));
  }

  lemma CompactObj(ms: seq<Member>)
    ensures Compact(JObj(ms)) == "{" + Join(",", CompactMembers(ms)) + "}"
  {
    assert CompactMembers(ms)
        == seq(|ms|, i requires 0 <= i < |ms| => Quote(ms[i].key) + ":" + Compact(ms[i].value));
  }

  function Strings(lines: seq<string>): (r: seq<Json>)
    ensures |r| == |lines|
  {
    seq(|lines|, i requires 0 <= i < |lines| => JStr(lines[i]))
  }

  // ---------- the excerpt records ----------

  datatype RecordKeys = RecordKeys(session: string, date: string, iso: string, index: string, text: string)

  const RECORD_KEYS := RecordKeys("session_id", "date", "date_iso", "excerpt_index", "excerpt")

  /** The date normalization: the `YYYY-MM-DD` prefix of a session date, if it has one. */
  type IsoDate = string -> Option<string>

  function RecordHead(k: RecordKeys, iso: IsoDate, e: Entry): seq<Member> {
    [Member(k.session, JStr(e.sessionId)), Member(k.date, JStr(e.date))]
    + (match iso(e.date) case None => [] case Some(d) => [Member(k.iso, JStr(d))])
  }

  function RecordOf(k: RecordKeys, iso: IsoDate, e: Entry): Json {
    JObj(RecordHead(k, iso, e) + [Member(k.index, JNum(e.chunkIndex + 1))] + [Member(k.text, JStr(e.text))])
  }

  function ExcerptRecord(iso: IsoDate, e: Entry): Json {
    RecordOf(RECORD_KEYS, iso, e)
  }

  /** Serialized cost of an entry: the record and one separator comma. */
  function JsonCost(iso: IsoDate): Entry -> int {
    (e: Entry) => |Compact(ExcerptRecord(iso, e))| + 1
  }

  function Records(iso: IsoDate, es: seq<Entry>): (r: seq<Json>)
    ensures |r| == |es|
  {
    seq(|es|, i requires 0 <= i < |es| => ExcerptRecord(iso, es[i]))
  }

  // ---------- the streamed document ----------

  datatype Keys = Keys(memories: string, excerpts: string, notes: string, timeline: string)

  const DOCUMENT_KEYS := Keys("memories", "session_excerpts", "notes", "derived_timeline")

  function Field(key: string, v: Json): string {
    CompactMember(Member(key, v))
  }

  function Prefix(k: Keys, memories: seq<Json>): string {
    "{" + Field(k.memories, JArr(memories)) + "," + (Quote(k.excerpts) + ":") + "["
  }

  function OptionalField(key: string, lines: seq<string>): string {
    if lines == [] then "" else "," + Field(key, JArr(Strings(lines)))
  }

  function Suffix(k: Keys, notes: seq<string>): string {
    "]" + OptionalField(k.notes, notes) + "}"
  }

  function Timeline(k: Keys, derived: seq<string>): string {
    OptionalField(k.timeline, derived)
  }

  function OptionalMember(key: string, lines: seq<string>): seq<Member> {
    if lines == [] then [] else [Member(key, JArr(Strings(lines)))]
  }

  /** The whole document as one JSON value. */
  function Document(k: Keys, memories: seq<Json>, excerpts: seq<Json>, notes: seq<string>, derived: seq<string>): Json {
    JObj([Member(k.memories, JArr(memories)), Member(k.excerpts, JArr(excerpts))]
         + (OptionalMember(k.notes, notes) + OptionalMember(k.timeline, derived)))
  }

  /** What is put before and after the excerpt records: without any record, it is the whole document. */
  method DocumentEnvelope(k: Keys, memories: seq<Json>, notes: seq<string>) returns (prefix: string, suffix: string)
    ensures prefix == Prefix(k, memories) && suffix == Suffix(k, notes)
    ensures prefix + suffix == Compact(Document(k, memories, [], notes, []))
  {
    prefix := "{" + Field(k.memories, JArr(memories)) + "," + (Quote(k.excerpts) + ":") + "[";
    suffix := "]";
    if notes != [] {
      suffix := suffix + ("," + Field(k.notes, JArr(Strings(notes))));
    }
    suffix := suffix + "}";
    EnvelopeIsDocument(k, memories, notes);
  }

  lemma EnvelopeIsDocument(k: Keys, memories: seq<Json>, notes: seq<string>)
    ensures Prefix(k, memories) + Suffix(k, notes) == Compact(Document(k, memories, [], notes, []))
  {
    StreamedIsWhole(k, memories, [], notes, []);
    var suffix := Suffix(k, notes);
    assert Spliced(k, suffix, []) == suffix;
    assert CompactAll([]) == [];
  }

  /** The closing brace is taken off, the timeline put in, and the brace put back. */
  method AppendDerivedTimeline(k: Keys, suffix: string, derived: seq<string>) returns (r: string)
    requires |suffix| > 0 && suffix[|suffix| - 1] == '}'
    ensures r == Spliced(k, suffix, derived)
  {
    if derived == [] {
      assert suffix == suffix[..|suffix| - 1] + "}";
      return suffix;
    }
    r := suffix[..|suffix| - 1] + ("," + Field(k.timeline, JArr(Strings(derived)))) + "}";
  }

  function Spliced(k: Keys, suffix: string, derived: seq<string>): string
    requires |suffix| > 0
  {
    suffix[..|suffix| - 1] + Timeline(k, derived) + "}"
  }

  function AssembleDocument(prefix: string, excerpts: seq<string>, suffix: string): string {
    prefix + Join(",", excerpts) + suffix
  }

  function Fixed(k: Keys, memories: seq<Json>, notes: seq<string>): nat {
    |Prefix(k, memories)| + |Suffix(k, notes)|
  }

  /** What the renderer returns for its five sections: an entirely empty pack renders as nothing. */
  function Rendered(k: Keys, memories: seq<Json>, excerpts: seq<Json>, notes: seq<string>, derived: seq<string>): string {
    if memories == [] && excerpts == [] && notes == [] && derived == [] then ""
    else Compact(Document(k, memories, excerpts, notes, derived))
  }

  method RenderContextJson(q: Query, sources: seq<Source>, memories: seq<Json>, notes: seq<string>,
                           rawDerived: seq<string>, k: Keys, iso: IsoDate, budget: int)
    returns (document: string, excerptCount: nat)
    ensures var selected := Select(q, sources, JsonCost(iso), budget, Fixed(k, memories, notes));
            && excerptCount == |selected|
            && document == Rendered(k, memories, Records(iso, selected), notes, Prose.DerivedLines(rawDerived))
  {
    var prefix, suffix := DocumentEnvelope(k, memories, notes);
    var used := |prefix| + |suffix|;
    assert used == Fixed(k, memories, notes);
    var cost := JsonCost(iso);
    var selected := SelectExcerpts(q, sources, cost, budget, used);
    assert selected == Select(q, sources, JsonCost(iso), budget, Fixed(k, memories, notes));
    var derived := Prose.DerivedPackLines(rawDerived);
    excerptCount := |selected|;
    document := StreamDocument(k, memories, Records(iso, selected), notes, derived, prefix, suffix);
  }

  method StreamDocument(k: Keys, memories: seq<Json>, excerpts: seq<Json>, notes: seq<string>, derived: seq<string>,
                        prefix: string, suffix: string)
    returns (document: string)
    requires prefix == Prefix(k, memories) && suffix == Suffix(k, notes)
    ensures document == Rendered(k, memories, excerpts, notes, derived)
  {
    var closing := AppendDerivedTimeline(k, suffix, derived);
    if memories == [] && excerpts == [] && notes == [] && derived == [] {
      return "";
    }
    document := AssembleDocument(prefix, CompactAll(excerpts), closing);
    StreamedIsWhole(k, memories, excerpts, notes, derived);
  }

  // ---------- the stream is the document ----------

  lemma JoinPair(a: string, b: string, cs: seq<string>)
    ensures Join(",", [a, b] + cs) == a + "," + b + (if cs == [] then "" else "," + Join(",", cs))
  {
    assert ([a, b] + cs)[1..] == [b] + cs;
    assert ([b] + cs)[1..] == cs;
  }

  function Tail(parts: seq<string>): string {
    if parts == [] then "" else "," + Join(",", parts)
  }

  lemma TailConcat(a: seq<string>, b: seq<string>)
    ensures Tail(a + b) == Tail(a) + Tail(b)
  {
    if a == [] {
      assert a + b == b;
    } else if b == [] {
      assert a + b == a;
    } else {
      var x, y := Join(",", a), Join(",", b);
      JoinConcat(",", a, b);
      CommaFirst(x, y);
    }
  }

  lemma CommaFirst(x: string, y: string)
    ensures "," + (x + "," + y) == ("," + x) + ("," + y)
  {
  }

  lemma OptionalIsTail(key: string, lines: seq<string>)
    ensures Tail(CompactMembers(OptionalMember(key, lines))) == OptionalField(key, lines)
  {
    if lines != [] {
      var m := Member(key, JArr(Strings(lines)));
      assert CompactMembers([m]) == [CompactMember(m)];
    }
  }

  lemma MembersConcat(a: seq<Member>, b: seq<Member>)
    ensures CompactMembers(a + b) == CompactMembers(a) + CompactMembers(b)
  {
  }

  lemma Regroup(m: string, q: string, records: string, notes: string, timeline: string)
    ensures ("{" + m + "," + q + "[") + records + (("]" + notes) + timeline + "}")
         == "{" + (m + "," + (q + ("[" + records + "]")) + (notes + timeline)) + "}"
  {
  }

  /** Streaming the excerpt records between prefix and suffix, with the timeline spliced in before the last
      brace, yields exactly the serialization of the whole object. */
  lemma StreamedIsWhole(k: Keys, memories: seq<Json>, excerpts: seq<Json>, notes: seq<string>, derived: seq<string>)
    ensures AssembleDocument(Prefix(k, memories), CompactAll(excerpts), Spliced(k, Suffix(k, notes), derived))
         == Compact(Document(k, memories, excerpts, notes, derived))
  {
    var a, b := Member(k.memories, JArr(memories)), Member(k.excerpts, JArr(excerpts));
    var n, d := OptionalMember(k.notes, notes), OptionalMember(k.timeline, derived);
    CompactObj([a, b] + (n + d));
    MembersConcat([a, b], n + d);
    MembersConcat(n, d);
    assert CompactMembers([a, b]) == [CompactMember(a), CompactMember(b)];
    JoinPair(CompactMember(a), CompactMember(b), CompactMembers(n + d));
    TailConcat(CompactMembers(n), CompactMembers(d));
    OptionalIsTail(k.notes, notes);
    OptionalIsTail(k.timeline, derived);
    CompactArr(excerpts);
    var suffix := Suffix(k, notes);
    assert suffix[..|suffix| - 1] == "]" + OptionalField(k.notes, notes);
    Regroup(CompactMember(a), Quote(k.excerpts) + ":", Join(",", CompactAll(excerpts)),
            OptionalField(k.notes, notes), Timeline(k, derived));
    assert CompactMember(b) == (Quote(k.excerpts) + ":") + Compact(JArr(excerpts));
  }

  // ---------- length ----------

  lemma {:induction false} RecordsCost(iso: IsoDate, es: seq<Entry>)
    ensures LineCost(CompactAll(Records(iso, es))) == Total(JsonCost(iso), es)
  {
    if |es| > 0 {
      var n := |es| - 1;
      RecordsCost(iso, es[..n]);
      assert CompactAll(Records(iso, es))[..n] == CompactAll(Records(iso, es[..n]));
    }
  }

  /** The document is exactly as long as its fixed parts, its records with their commas, less the comma the
      last record does not need, plus the timeline's own serialization. */
  lemma DocumentLength(k: Keys, iso: IsoDate, memories: seq<Json>, es: seq<Entry>, notes: seq<string>, derived: seq<string>)
    ensures |Compact(Document(k, memories, Records(iso, es), notes, derived))|
         == Fixed(k, memories, notes) + Total(JsonCost(iso), es) - (if es == [] then 0 else 1) + |Timeline(k, derived)|
  {
    StreamedIsWhole(k, memories, Records(iso, es), notes, derived);
    RecordsCost(iso, es);
    if es != [] {
      JoinLength(',', CompactAll(Records(iso, es)));
    }
  }

  lemma JsonCostIsPositive(iso: IsoDate)
    ensures Positive(JsonCost(iso))
  {
  }

  /** Whenever the fixed sections fit, the document without its timeline stays within the budget, and the
      timeline adds exactly its own serialized length. When they do not fit, no excerpt is emitted. */
  lemma DocumentIsBounded(q: Query, sources: seq<Source>, k: Keys, memories: seq<Json>, notes: seq<string>,
                          derived: seq<string>, iso: IsoDate, budget: int)
    ensures var selected := Select(q, sources, JsonCost(iso), budget, Fixed(k, memories, notes));
            var plain := |Compact(Document(k, memories, Records(iso, selected), notes, []))|;
            && |Compact(Document(k, memories, Records(iso, selected), notes, derived))| == plain + |Timeline(k, derived)|
            && if Fixed(k, memories, notes) <= budget then plain <= budget else selected == []
  {
    var used := Fixed(k, memories, notes);
    var selected := Select(q, sources, JsonCost(iso), budget, used);
    JsonCostIsPositive(iso);
    DocumentLength(k, iso, memories, selected, notes, derived);
    DocumentLength(k, iso, memories, selected, notes, []);
    if used <= budget {
      AccountingIsExact(q, sources, JsonCost(iso), budget, used);
    } else {
      OverspentSelectsNothing(q, sources, JsonCost(iso), budget, used);
    }
  }

  // ---------- escaping ----------

  /** The inverse of `Escape`: reads a string body up to its closing quote. */
  function ReadString(s: string): Option<(string, string)> {
    if s == "" then None
    else if s[0] == '\"' then Some(("", s[1..]))
    else
      match ReadChar(s)
      case None => None
      case Some(p) =>
        match ReadString(s[p.1..])
        case None => None
        case Some(r) => Some(([p.0] + r.0, r.1))
  }

  /** One character of a string body and how many characters spell it. */
  function ReadChar(s: string): (r: Option<(char, nat)>)
    requires s != ""
    ensures r.Some? ==> 0 < r.value.1 <= |s|
  {
    if s[0] != '\\' then (if Plain(s[0]) then Some((s[0], 1)) else None)
    else if |s| < 2 then None
    else if s[1] == '\"' || s[1] == '\\' then Some((s[1], 2))
    else if s[1] == 'n' then Some(('\n', 2))
    else if s[1] == 'r' then Some(('\r', 2))
    else if s[1] == 't' then Some(('\t', 2))
    else if s[1] == 'b' then Some(('\U{8}', 2))
    else if s[1] == 'f' then Some(('\U{C}', 2))
    else if |s| < 6 || s[1..4] != ['u', '0', '0'] then None
    else
      match (HexValue(s[4]), HexValue(s[5]))
      case (Some(h), Some(l)) => if 16 * h + l < 128 then Some(((16 * h + l) as char, 6)) else None
      case _ => None
  }

  lemma ReadEscapedChar(c: char, rest: string)
    ensures ReadChar(EscapeChar(c) + rest) == Some((c, |EscapeChar(c)|))
  {
    var s := EscapeChar(c) + rest;
    if c < ' ' && |EscapeChar(c)| == 6 {
      assert s[1..4] == ['u', '0', '0'];
      assert HexValue(HexDigit(c as int / 16)) == Some(c as int / 16);
      assert HexValue(HexDigit(c as int % 16)) == Some(c as int % 16);
    }
  }

  lemma ReadOne(c: char, tail: string, s: string, rest: string)
    requires ReadString(tail) == Some((s, rest))
    ensures ReadString(EscapeChar(c) + tail) == Some(([c] + s, rest))
  {
    ReadEscapedChar(c, tail);
    assert (EscapeChar(c) + tail)[|EscapeChar(c)|..] == tail;
    assert EscapeChar(c)[0] != '\"';
  }

  lemma ReadNone(rest: string)
    ensures ReadString(Escape("") + ['\"'] + rest) == Some(("", rest))
  {
    assert Escape("") + ['\"'] + rest == ['\"'] + rest;
    assert (['\"'] + rest)[1..] == rest;
  }

  /** Reading back a quoted string gives the string and stops exactly behind its closing quote, so no text
      can break out of its field. */
  lemma {:induction false} ReadUndoesQuote(s: string, rest: string)
    ensures ReadString(Escape(s) + ['\"'] + rest) == Some((s, rest))
  {
    if s == "" {
      ReadNone(rest);
    } else {
      var t := s[1..];
      ReadUndoesQuote(t, rest);
      ReadOne(s[0], Escape(t) + ['\"'] + rest, t, rest);
      assert Escape(s) + ['\"'] + rest == EscapeChar(s[0]) + (Escape(t) + ['\"'] + rest);
      assert s == [s[0]] + t;
    }
  }

  lemma {:induction false} EscapeGrows(s: string)
    ensures |Escape(s)| >= |s|
    ensures |Escape(s)| == |s| <==> forall i :: 0 <= i < |s| ==> Plain(s[i])
  {
    if s != "" {
      EscapeGrows(s[1..]);
      assert forall i :: 1 <= i < |s| ==> s[i] == s[1..][i - 1];
      assert |EscapeChar(s[0])| == 1 <==> Plain(s[0]);
    }
  }

  // ---------- anchoring and the JSON cost ----------

  lemma LastMember(ms: seq<Member>, m: Member)
    requires ms != []
    ensures Join(",", CompactMembers(ms + [m])) == Join(",", CompactMembers(ms)) + "," + CompactMember(m)
  {
    assert CompactMembers(ms + [m]) == CompactMembers(ms) + [CompactMember(m)];
    JoinConcat(",", CompactMembers(ms), [CompactMember(m)]);
  }

  lemma RecordLength(k: RecordKeys, iso: IsoDate, e: Entry)
    ensures |Compact(RecordOf(k, iso, e))|
         == |Join(",", CompactMembers(RecordHead(k, iso, e)))| + |Quote(k.index)| + |Quote(k.text)|
            + |Str(e.chunkIndex + 1)| + |Escape(e.text)| + 8
  {
    var head := RecordHead(k, iso, e);
    var index, text := Member(k.index, JNum(e.chunkIndex + 1)), Member(k.text, JStr(e.text));
    CompactObj(head + [index] + [text]);
    LastMember(head, index);
    LastMember(head + [index], text);
    assert |CompactMember(index)| == |Quote(k.index)| + 1 + |Str(e.chunkIndex + 1)|;
    assert |CompactMember(text)| == |Quote(k.text)| + 1 + |Escape(e.text)| + 2;
  }

  /** Two entries of one source differ in JSON cost by their escaped texts and their printed ordinals. */
  lemma JsonCostDifference(iso: IsoDate, a: Entry, b: Entry)
    requires a.sessionId == b.sessionId && a.date == b.date
    ensures JsonCost(iso)(a) - JsonCost(iso)(b)
         == (|Escape(a.text)| - |Escape(b.text)|) + (|Str(a.chunkIndex + 1)| - |Str(b.chunkIndex + 1)|)
  {
    RecordDifference(RECORD_KEYS, iso, a, b);
  }

  lemma RecordDifference(k: RecordKeys, iso: IsoDate, a: Entry, b: Entry)
    requires a.sessionId == b.sessionId && a.date == b.date
    ensures |Compact(RecordOf(k, iso, a))| - |Compact(RecordOf(k, iso, b))|
         == (|Escape(a.text)| - |Escape(b.text)|) + (|Str(a.chunkIndex + 1)| - |Str(b.chunkIndex + 1)|)
  {
    RecordLength(k, iso, a);
    RecordLength(k, iso, b);
  }

  lemma {:induction false} EscapeConcat(a: string, b: string)
    ensures Escape(a + b) == Escape(a) + Escape(b)
  {
    if a == "" {
      assert a + b == b;
    } else {
      assert (a + b)[1..] == a[1..] + b;
      EscapeConcat(a[1..], b);
      assert EscapeChar(a[0]) + (Escape(a[1..]) + Escape(b)) == Escape(a) + Escape(b);
    }
  }

  lemma EscapeJoined(a: string, b: string)
    ensures |Escape(a + "\n" + b)| == |Escape(a)| + |Escape(b)| + 2
  {
    EscapeConcat(a + "\n", b);
    EscapeConcat(a, "\n");
    assert "\n"[1..] == "" && Escape("\n") == EscapeChar('\n') + Escape("");
  }

  /** Joining a text to an entry adds its escaped characters and the two of an escaped newline. */
  function JoinedChars(text: string): nat {
    |Escape(text)| + 2
  }

  lemma JsonCostIsAdditive(iso: IsoDate)
    ensures PackerGrown.Additive(JsonCost(iso), JoinedChars)
  {
    forall e: Entry, text: string
      ensures JsonCost(iso)(e.(text := e.text + "\n" + text)) == JsonCost(iso)(e) + JoinedChars(text)
      ensures JsonCost(iso)(e.(text := text + "\n" + e.text)) == JsonCost(iso)(e) + JoinedChars(text)
    {
      EscapeJoined(e.text, text);
      EscapeJoined(text, e.text);
      JsonCostDifference(iso, e.(text := e.text + "\n" + text), e);
      JsonCostDifference(iso, e.(text := text + "\n" + e.text), e);
    }
  }

  /** A continuation missing from a record of the JSON document would overflow the budget by its escaped characters
      and the two of an escaped newline. */
  lemma JsonContinuations(q: Query, cs: seq<Candidate>, iso: IsoDate, budget: int, used: int, i: nat)
    requires Presentable(cs) && i < |AdmitAll(q, cs, JsonCost(iso), budget, used).selected|
    ensures var p, r := AdmitAll(q, cs, JsonCost(iso), budget, used), PackAll(q, cs, JsonCost(iso), budget, used);
            && PackerGrown.SourcesKnown(cs, p) && |p.selected| <= |r.selected|
            && PackerGrown.MissingOverflows(r.selected[i], Offer(q, cs[p.spans[i].src]),
                                            PackerGrown.DownText(q, cs[p.spans[i].src]),
                                            PackerGrown.UpText(q, cs[p.spans[i].src]), JoinedChars, budget - r.used)
  {
    JsonCostIsAdditive(iso);
    JsonCostIsPositive(iso);
    PackerGrown.OnlyOverflowIsMissing(q, cs, JsonCost(iso), JoinedChars, budget, used, i);
  }

  predicate CostsNoMore(iso: IsoDate, a: Entry, b: Entry) {
    JsonCost(iso)(a) <= JsonCost(iso)(b)
  }

  predicate NoLongerEscaped(a: Entry, b: Entry) {
    |Escape(a.text)| + |Str(a.chunkIndex + 1)| <= |Escape(b.text)| + |Str(b.chunkIndex + 1)|
  }

  lemma JsonCostOrder(iso: IsoDate, a: Entry, b: Entry)
    requires a.sessionId == b.sessionId && a.date == b.date
    ensures CostsNoMore(iso, a, b) <==> NoLongerEscaped(a, b)
  {
    JsonCostDifference(iso, a, b);
  }

  /** As JSON an anchored entry costs no more than the chunk it replaces if and only if its escaped text and its
      ordinal are no longer than the chunk's. */
  lemma JsonOfferCostsNoMore(q: Query, c: Candidate, iso: IsoDate)
    requires |c.ranked| > 0
    ensures CostsNoMore(iso, Offer(q, c), c.ranked[0]) <==> NoLongerEscaped(Offer(q, c), c.ranked[0])
  {
    OfferKeepsLabel(q, c);
    JsonCostOrder(iso, Offer(q, c), c.ranked[0]);
  }

  /** Under the JSON cost: admission is the same as without anchoring if and only if no source is moved to the
      other side of the budget by what anchoring saves or adds up to it. */
  lemma JsonAdmissionUnchanged(q: Query, cs: seq<Candidate>, iso: IsoDate, budget: int, used: int)
    requires Presentable(cs)
    ensures SameAdmission(q, cs, |cs|, JsonCost(iso), budget, used)
       <==> NoneChangesSide(q, cs, |cs|, JsonCost(iso), budget, used)
  {
    AdmissionUnchanged(q, cs, |cs|, JsonCost(iso), budget, used);
  }

  lemma ItemCostAsJson(q: Query, c: Candidate, item: string, iso: IsoDate)
    requires |c.ranked| > 0 && c.ranked[0].chunkIndex == 1
    requires Offer(q, c) == c.ranked[0].(chunkIndex := 0, text := item)
    ensures JsonCost(iso)(Offer(q, c)) > JsonCost(iso)(c.ranked[0]) <==> |Escape(item)| > |Escape(c.ranked[0].text)|
  {
    OneDigit();
    JsonCostDifference(iso, Offer(q, c), c.ranked[0]);
  }

  lemma DearerItemExcludes(q: Query, cs: seq<Candidate>, item: string, long: string, iso: IsoDate)
    requires |cs| == 2 && Presentable(cs) && Replaced(q, cs, item, long)
    ensures AnchoringCostsMore(q, cs, iso) <==> |Escape(item)| > |Escape(long)|
    ensures AnchoringCostsMore(q, cs, iso) ==> AnchoringLoses(q, cs, JsonCost(iso))
  {
    var cost := JsonCost(iso);
    ItemCostAsJson(q, cs[0], item, iso);
    JsonCostIsPositive(iso);
    if |Escape(item)| > |Escape(long)| {
      DearerExcludes(q, cs, cost, BestCosts(cs, cost));
    }
  }

  predicate AnchoringCostsMore(q: Query, cs: seq<Candidate>, iso: IsoDate)
    requires |cs| == 2 && Presentable(cs)
  {
    JsonCost(iso)(Offer(q, cs[0])) > JsonCost(iso)(cs[0].ranked[0])
  }

  /** The cost domination of anchoring holds for prose only: as JSON a window shorter than the chunk it replaces
      costs more if and only if escaping it takes more characters, and then, at one budget, anchoring loses a
      session that is admitted without it. */
  lemma AnchoringCanCostMoreAsJson(q: Query, item: string, long: string, short: string, iso: IsoDate)
    requires Presented(item, long, short) && Competing(q, item, long)
    ensures var cs := Collect(q, Sessions(item, long, short));
            && |cs| == 2 && Presentable(cs) && Replaced(q, cs, item, long)
            && (AnchoringCostsMore(q, cs, iso) <==> |Escape(item)| > |Escape(long)|)
            && (AnchoringCostsMore(q, cs, iso) ==> AnchoringLoses(q, cs, JsonCost(iso)))
  {
    var cs := Collect(q, Sessions(item, long, short));
    Offered(q, item, long, short, cs);
    DearerItemExcludes(q, cs, item, long, iso);
  }

  /** Such texts exist: quotation marks take two characters each, plain characters one. */
  lemma {:induction false} QuotesGrow(item: string, long: string)
    requires (forall i :: 0 <= i < |item| ==> item[i] == '\"') && (forall i :: 0 <= i < |long| ==> Plain(long[i]))
    ensures |Escape(item)| == 2 * |item| && |Escape(long)| == |long|
  {
    EscapeGrows(long);
    if item != "" {
      QuotesGrow(item[1..], "");
    }
  }
}
