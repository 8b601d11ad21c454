/** Reading a compact document back: a reader for the output of the serializer, its round trip, and what follows
    from it, namely that a rendered context determines everything that was put into it. */
module JsonReader {
  import opened Text
  import opened Wrappers
  import opened Packer
  import opened JsonPack

  // ---------- numbers ----------

  predicate IsDigit(c: char) {
    '0' <= c <= '9'
  }

  predicate StartsWith(s: string, c: char) {
    s != "" && s[0] == c
  }

  /** How many digits a text starts with. */
  function DigitCount(s: string): (n: nat)
    ensures n <= |s|
  {
    if s == "" || !IsDigit(s[0]) then 0 else 1 + DigitCount(s[1..])
  }

  function DigitsValue(s: string): nat
    requires forall i :: 0 <= i < |s| ==> IsDigit(s[i])
  {
    if s == "" then 0
    else
      var n := |s| - 1;
      assert IsDigit(s[n]);
      10 * DigitsValue(s[..n]) + (s[n] as int - '0' as int)
  }

  lemma {:induction false} CountedAreDigits(s: string)
    ensures forall i :: 0 <= i < DigitCount(s) ==> IsDigit(s[i])
  {
    if s != "" && IsDigit(s[0]) {
      CountedAreDigits(s[1..]);
      assert forall i :: 1 <= i < DigitCount(s) ==> s[i] == s[1..][i - 1];
    }
  }

  function ReadDigits(s: string): (r: Option<(nat, string)>)
    ensures r.Some? ==> |r.value.1| < |s|
  {
    var n := DigitCount(s);
    CountedAreDigits(s);
    if n == 0 then None else Some((DigitsValue(s[..n]), s[n..]))
  }

  function ReadNumber(s: string): (r: Option<(Json, string)>)
    ensures r.Some? ==> |r.value.1| < |s|
  {
    if StartsWith(s, '-') then
      match ReadDigits(s[1..])
      case None => None
      case Some(p) => Some((JNum(-(p.0 as int)), p.1))
    else
      match ReadDigits(s)
      case None => None
      case Some(p) => Some((JNum(p.0), p.1))
  }

  // ---------- values ----------

  function ReadWord(s: string, word: string, v: Json): (r: Option<(Json, string)>)
    requires word != ""
    ensures r.Some? ==> |r.value.1| < |s|
  {
    if |word| <= |s| && s[..|word|] == word then Some((v, s[|word|..])) else None
  }

  lemma {:induction false} ReadStringShortens(s: string)
    ensures ReadString(s).Some? ==> |ReadString(s).value.1| < |s|
  {
    if s != "" && s[0] != '\"' && ReadChar(s).Some? {
      ReadStringShortens(s[ReadChar(s).value.1..]);
    }
  }

  /** One value at the front of a text, and the text behind it. */
  function ReadValue(s: string): (r: Option<(Json, string)>)
    ensures r.Some? ==> |r.value.1| < |s|
    decreases |s|, 0
  {
    if StartsWith(s, '\"') then
      (ReadStringShortens(s[1..]);
       match ReadString(s[1..])
       case None => None
       case Some(p) => Some((JStr(p.0), p.1)))
    else if StartsWith(s, '[') then
      (if StartsWith(s[1..], ']') then Some((JArr([]), s[2..]))
       else
         match ReadItems(s[1..])
         case None => None
         case Some(p) => Some((JArr(p.0), p.1)))
    else if StartsWith(s, '{') then
      (if StartsWith(s[1..], '}') then Some((JObj([]), s[2..]))
       else
         match ReadMembers(s[1..])
         case None => None
         case Some(p) => Some((JObj(p.0), p.1)))
    else if StartsWith(s, 'n') then ReadWord(s, "null", JNull)
    else if StartsWith(s, 't') then ReadWord(s, "true", JBool(true))
    else if StartsWith(s, 'f') then ReadWord(s, "false", JBool(false))
    else ReadNumber(s)
  }

  /** The items of a nonempty array, up to its closing bracket. */
  function ReadItems(s: string): (r: Option<(seq<Json>, string)>)
    ensures r.Some? ==> |r.value.1| < |s|
    decreases |s|, 1
  {
    match ReadValue(s)
    case None => None
    case Some(p) =>
      if StartsWith(p.1, ']') then Some(([p.0], p.1[1..]))
      else if !StartsWith(p.1, ',') then None
      else
        match ReadItems(p.1[1..])
        case None => None
        case Some(rest) => Some(([p.0] + rest.0, rest.1))
  }

  /** A key, a colon and a value. */
  function ReadMember(s: string): (r: Option<(Member, string)>)
    ensures r.Some? ==> |r.value.1| < |s|
    decreases |s|, 1
  {
    if !StartsWith(s, '\"') then None
    else
      (ReadStringShortens(s[1..]);
       match ReadString(s[1..])
       case None => None
       case Some(key) =>
         if !StartsWith(key.1, ':') then None
         else
           match ReadValue(key.1[1..])
           case None => None
           case Some(p) => Some((Member(key.0, p.0), p.1)))
  }

  /** The members of a nonempty object, up to its closing brace. */
  function ReadMembers(s: string): (r: Option<(seq<Member>, string)>)
    ensures r.Some? ==> |r.value.1| < |s|
    decreases |s|, 2
  {
    match ReadMember(s)
    case None => None
    case Some(p) =>
      if StartsWith(p.1, '}') then Some(([p.0], p.1[1..]))
      else if !StartsWith(p.1, ',') then None
      else
        match ReadMembers(p.1[1..])
        case None => None
        case Some(rest) => Some(([p.0] + rest.0, rest.1))
  }

  // ---------- the round trip of numbers ----------

  /** What may stand behind a value: anything that does not continue a number. */
  predicate Ends(rest: string) {
    rest == "" || !IsDigit(rest[0])
  }

  lemma DigitIsDigit(d: nat)
    requires d < 10
    ensures IsDigit(Digit(d)) && Digit(d) as int - '0' as int == d
  {
  }

  lemma AppendDigit(s: string, d: nat)
    requires (forall i :: 0 <= i < |s| ==> IsDigit(s[i])) && d < 10
    ensures forall i :: 0 <= i < |s| + 1 ==> IsDigit((s + [Digit(d)])[i])
    ensures DigitsValue(s + [Digit(d)]) == 10 * DigitsValue(s) + d
  {
    DigitIsDigit(d);
    assert (s + [Digit(d)])[..|s|] == s;
  }

  lemma {:induction false} DigitsAreDigits(n: nat)
    ensures forall i :: 0 <= i < |Digits(n)| ==> IsDigit(Digits(n)[i])
    ensures DigitsValue(Digits(n)) == n
  {
    if n < 10 {
      AppendDigit("", n);
      assert "" + [Digit(n)] == [Digit(n)];
    } else {
      DigitsAreDigits(n / 10);
      AppendDigit(Digits(n / 10), n % 10);
    }
  }

  lemma {:induction false} CountAll(digits: string, rest: string)
    requires (forall i :: 0 <= i < |digits| ==> IsDigit(digits[i])) && Ends(rest)
    ensures DigitCount(digits + rest) == |digits|
  {
    if digits == "" {
      assert digits + rest == rest;
    } else {
      assert (digits + rest)[1..] == digits[1..] + rest;
      CountAll(digits[1..], rest);
    }
  }

  lemma ReadUndoesDigits(n: nat, rest: string)
    requires Ends(rest)
    ensures ReadDigits(Digits(n) + rest) == Some((n, rest))
  {
    var digits := Digits(n);
    DigitsAreDigits(n);
    CountAll(digits, rest);
    assert (digits + rest)[..|digits|] == digits && (digits + rest)[|digits|..] == rest;
  }

  lemma ReadNegative(digits: string, n: nat, rest: string)
    requires ReadDigits(digits + rest) == Some((n, rest))
    ensures ReadNumber("-" + digits + rest) == Some((JNum(-(n as int)), rest))
  {
    assert ("-" + digits + rest)[1..] == digits + rest;
  }

  lemma ReadNatural(digits: string, n: nat, rest: string)
    requires digits != "" && IsDigit(digits[0]) && ReadDigits(digits + rest) == Some((n, rest))
    ensures ReadNumber(digits + rest) == Some((JNum(n), rest))
  {
  }

  lemma ReadUndoesStr(n: int, rest: string)
    requires Ends(rest)
    ensures ReadNumber(Str(n) + rest) == Some((JNum(n), rest))
  {
    if n < 0 {
      ReadUndoesDigits(-n, rest);
      ReadNegative(Digits(-n), -n, rest);
    } else {
      ReadUndoesDigits(n, rest);
      DigitsAreDigits(n);
      ReadNatural(Digits(n), n, rest);
    }
  }

  lemma StrStart(n: int)
    ensures Str(n)[0] == '-' || IsDigit(Str(n)[0])
  {
    DigitsAreDigits(if n < 0 then -n else n);
  }

  // ---------- the round trip of documents ----------

  lemma ReadUndoesWord(word: string, v: Json, rest: string)
    requires word != ""
    ensures ReadWord(word + rest, word, v) == Some((v, rest))
  {
    assert (word + rest)[..|word|] == word && (word + rest)[|word|..] == rest;
  }

  lemma StartIsValue(v: Json)
    ensures Compact(v) != "" && Compact(v)[0] !in [']', '}', ',', ':']
  {
    match v
    case JNum(n) => StrStart(n);
    case _ =>
  }

  /** Reading the serialization of any value gives that value and stops right behind it. */
  lemma {:induction false} ReadUndoesCompact(v: Json, rest: string)
    requires Ends(rest)
    ensures ReadValue(Compact(v) + rest) == Some((v, rest))
    decreases v, 1, 0
  {
    match v
    case JNull => ReadWords(rest);
    case JBool(_) => ReadWords(rest);
    case JNum(n) => ReadInteger(n, rest);
    case JStr(s) => ReadText(s, rest);
    case JArr(items) =>
      if items == [] {
        ReadEmpty(rest);
      } else {
        ReadItemsFrom(v, 0, rest);
        assert v.items[0..] == v.items;
        OpenArray(items, rest);
      }
    case JObj(ms) =>
      if ms == [] {
        ReadEmpty(rest);
      } else {
        ReadMembersFrom(v, 0, rest);
        assert v.members[0..] == v.members;
        OpenObject(ms, rest);
      }
  }

  lemma ReadWords(rest: string)
    ensures ReadValue(Compact(JNull) + rest) == Some((JNull, rest))
    ensures ReadValue(Compact(JBool(true)) + rest) == Some((JBool(true), rest))
    ensures ReadValue(Compact(JBool(false)) + rest) == Some((JBool(false), rest))
  {
    ReadUndoesWord("null", JNull, rest);
    ReadUndoesWord("true", JBool(true), rest);
    ReadUndoesWord("false", JBool(false), rest);
  }

  lemma ReadInteger(n: int, rest: string)
    requires Ends(rest)
    ensures ReadValue(Compact(JNum(n)) + rest) == Some((JNum(n), rest))
  {
    StrStart(n);
    ReadUndoesStr(n, rest);
  }

  lemma ReadEmpty(rest: string)
    ensures ReadValue(Compact(JArr([])) + rest) == Some((JArr([]), rest))
    ensures ReadValue(Compact(JObj([])) + rest) == Some((JObj([]), rest))
  {
    CompactArr([]);
    CompactObj([]);
    assert Compact(JArr([])) + rest == "[]" + rest && Compact(JObj([])) + rest == "{}" + rest;
    assert ("[]" + rest)[1..] == "]" + rest && ("[]" + rest)[2..] == rest;
    assert ("{}" + rest)[1..] == "}" + rest && ("{}" + rest)[2..] == rest;
  }

  lemma Regroup(open: string, middle: string, close: string, rest: string)
    ensures open + middle + close + rest == open + (middle + close + rest)
    ensures open + middle + close + rest == open + (middle + (close + rest))
  {
  }

  lemma OpenQuote(body: string, s: string, rest: string)
    requires ReadString(body) == Some((s, rest))
    ensures ReadValue(['\"'] + body) == Some((JStr(s), rest))
  {
    assert (['\"'] + body)[1..] == body;
  }

  lemma ReadText(s: string, rest: string)
    ensures ReadValue(Quote(s) + rest) == Some((JStr(s), rest))
  {
    ReadUndoesQuote(s, rest);
    OpenQuote(Escape(s) + ['\"'] + rest, s, rest);
    Regroup(['\"'], Escape(s), ['\"'], rest);
  }

  lemma BodyStarts(parts: seq<string>, close: string, rest: string, avoid: char)
    requires parts != [] && parts[0] != "" && parts[0][0] != avoid
    ensures var body := Join(",", parts) + close + rest; body != "" && body[0] != avoid
  {
    assert Join(",", parts) != "" && Join(",", parts)[0] == parts[0][0];
  }

  lemma OpenBracket(body: string, items: seq<Json>, rest: string)
    requires body != "" && body[0] != ']' && ReadItems(body) == Some((items, rest))
    ensures ReadValue("[" + body) == Some((JArr(items), rest))
  {
    assert ("[" + body)[1..] == body;
  }

  lemma OpenBrace(body: string, ms: seq<Member>, rest: string)
    requires body != "" && body[0] != '}' && ReadMembers(body) == Some((ms, rest))
    ensures ReadValue("{" + body) == Some((JObj(ms), rest))
  {
    assert ("{" + body)[1..] == body;
  }

  lemma OpenArray(items: seq<Json>, rest: string)
    requires items != []
    requires ReadItems(Join(",", CompactAll(items)) + "]" + rest) == Some((items, rest))
    ensures ReadValue(Compact(JArr(items)) + rest) == Some((JArr(items), rest))
  {
    CompactArr(items);
    StartIsValue(items[0]);
    BodyStarts(CompactAll(items), "]", rest, ']');
    OpenBracket(Join(",", CompactAll(items)) + "]" + rest, items, rest);
    Regroup("[", Join(",", CompactAll(items)), "]", rest);
  }

  lemma OpenObject(ms: seq<Member>, rest: string)
    requires ms != []
    requires ReadMembers(Join(",", CompactMembers(ms)) + "}" + rest) == Some((ms, rest))
    ensures ReadValue(Compact(JObj(ms)) + rest) == Some((JObj(ms), rest))
  {
    CompactObj(ms);
    assert CompactMember(ms[0])[0] == '\"';
    BodyStarts(CompactMembers(ms), "}", rest, '}');
    OpenBrace(Join(",", CompactMembers(ms)) + "}" + rest, ms, rest);
    Regroup("{", Join(",", CompactMembers(ms)), "}", rest);
  }

  lemma {:induction false} ReadItemsFrom(v: Json, k: nat, rest: string)
    requires v.JArr? && k < |v.items|
    ensures ReadItems(Join(",", CompactAll(v.items[k..])) + "]" + rest) == Some((v.items[k..], rest))
    decreases v, 0, |v.items| - k
  {
    var item, later := v.items[k], v.items[k + 1..];
    assert v.items[k..] == [item] + later;
    if later == [] {
      assert v.items[k..] == [item];
      ReadUndoesCompact(item, "]" + rest);
      LastItem(item, rest);
    } else {
      var body := Join(",", CompactAll(later)) + "]" + rest;
      ReadItemsFrom(v, k + 1, rest);
      ReadUndoesCompact(item, "," + body);
      NextItem(item, later, rest);
    }
  }

  lemma LastItem(item: Json, rest: string)
    requires ReadValue(Compact(item) + ("]" + rest)) == Some((item, "]" + rest))
    ensures ReadItems(Join(",", CompactAll([item])) + "]" + rest) == Some(([item], rest))
  {
    assert Join(",", CompactAll([item])) + "]" + rest == Compact(item) + ("]" + rest);
    assert ("]" + rest)[1..] == rest;
  }

  lemma ItemsCons(item: Json, later: seq<Json>)
    ensures CompactAll([item] + later) == [Compact(item)] + CompactAll(later)
  {
  }

  lemma NextItem(item: Json, later: seq<Json>, rest: string)
    requires later != []
    requires var body := Join(",", CompactAll(later)) + "]" + rest;
             && ReadValue(Compact(item) + ("," + body)) == Some((item, "," + body))
             && ReadItems(body) == Some((later, rest))
    ensures ReadItems(Join(",", CompactAll([item] + later)) + "]" + rest) == Some(([item] + later, rest))
  {
    ItemsCons(item, later);
    ItemThen(Compact(item), CompactAll(later), item, later, rest);
  }

  lemma JoinFirst(first: string, parts: seq<string>, close: string, rest: string)
    requires parts != []
    ensures Join(",", [first] + parts) + close + rest == first + ("," + (Join(",", parts) + close + rest))
  {
    assert ([first] + parts)[1..] == parts;
  }

  lemma ItemThen(text: string, parts: seq<string>, item: Json, later: seq<Json>, rest: string)
    requires parts != []
    requires var body := Join(",", parts) + "]" + rest;
             ReadValue(text + ("," + body)) == Some((item, "," + body)) && ReadItems(body) == Some((later, rest))
    ensures ReadItems(Join(",", [text] + parts) + "]" + rest) == Some(([item] + later, rest))
  {
    var body := Join(",", parts) + "]" + rest;
    JoinFirst(text, parts, "]", rest);
    assert ("," + body)[1..] == body;
  }

  lemma ReadOneMember(m: Member, rest: string)
    requires ReadValue(Compact(m.value) + rest) == Some((m.value, rest))
    ensures ReadMember(CompactMember(m) + rest) == Some((m, rest))
  {
    ReadKeyValue(m.key, Compact(m.value), m.value, rest);
    Regroup(Quote(m.key), ":", Compact(m.value), rest);
  }

  lemma KeyThen(body: string, key: string, t: string, v: Json, rest: string)
    requires ReadString(body) == Some((key, ":" + t)) && ReadValue(t) == Some((v, rest))
    ensures ReadMember(['\"'] + body) == Some((Member(key, v), rest))
  {
    assert (['\"'] + body)[1..] == body && (":" + t)[1..] == t;
  }

  lemma ReadKeyValue(key: string, text: string, v: Json, rest: string)
    requires ReadValue(text + rest) == Some((v, rest))
    ensures ReadMember(Quote(key) + (":" + (text + rest))) == Some((Member(key, v), rest))
  {
    var tail := ":" + (text + rest);
    ReadUndoesQuote(key, tail);
    KeyThen(Escape(key) + ['\"'] + tail, key, text + rest, v, rest);
    Regroup(['\"'], Escape(key), ['\"'], tail);
  }

  lemma {:induction false} ReadMembersFrom(v: Json, k: nat, rest: string)
    requires v.JObj? && k < |v.members|
    ensures ReadMembers(Join(",", CompactMembers(v.members[k..])) + "}" + rest) == Some((v.members[k..], rest))
    decreases v, 0, |v.members| - k
  {
    var m, later := v.members[k], v.members[k + 1..];
    assert v.members[k..] == [m] + later;
    if later == [] {
      assert v.members[k..] == [m];
      ReadUndoesCompact(m.value, "}" + rest);
      LastRead(m, rest);
    } else {
      var body := Join(",", CompactMembers(later)) + "}" + rest;
      ReadMembersFrom(v, k + 1, rest);
      ReadUndoesCompact(m.value, "," + body);
      NextRead(m, later, rest);
    }
  }

  lemma LastRead(m: Member, rest: string)
    requires ReadValue(Compact(m.value) + ("}" + rest)) == Some((m.value, "}" + rest))
    ensures ReadMembers(Join(",", CompactMembers([m])) + "}" + rest) == Some(([m], rest))
  {
    ReadOneMember(m, "}" + rest);
    assert Join(",", CompactMembers([m])) + "}" + rest == CompactMember(m) + ("}" + rest);
    assert ("}" + rest)[1..] == rest;
  }

  lemma NextRead(m: Member, later: seq<Member>, rest: string)
    requires later != []
    requires var body := Join(",", CompactMembers(later)) + "}" + rest;
             && ReadValue(Compact(m.value) + ("," + body)) == Some((m.value, "," + body))
             && ReadMembers(body) == Some((later, rest))
    ensures ReadMembers(Join(",", CompactMembers([m] + later)) + "}" + rest) == Some(([m] + later, rest))
  {
    var body := Join(",", CompactMembers(later)) + "}" + rest;
    ReadOneMember(m, "," + body);
    MembersConcat([m], later);
    assert CompactMembers([m]) == [CompactMember(m)];
    MemberThen(CompactMember(m), CompactMembers(later), m, later, rest);
  }

  lemma MemberThen(text: string, parts: seq<string>, m: Member, later: seq<Member>, rest: string)
    requires parts != []
    requires var body := Join(",", parts) + "}" + rest;
             ReadMember(text + ("," + body)) == Some((m, "," + body)) && ReadMembers(body) == Some((later, rest))
    ensures ReadMembers(Join(",", [text] + parts) + "}" + rest) == Some(([m] + later, rest))
  {
    var body := Join(",", parts) + "}" + rest;
    JoinFirst(text, parts, "}", rest);
    assert ("," + body)[1..] == body;
  }

  // ---------- what a rendered context determines ----------

  /** Different values never share a serialization. */
  lemma CompactIsInjective(a: Json, b: Json)
    requires Compact(a) == Compact(b)
    ensures a == b
  {
    ReadUndoesCompact(a, "");
    ReadUndoesCompact(b, "");
    assert Compact(a) + "" == Compact(a) && Compact(b) + "" == Compact(b);
  }

  /** A reader of the rendered context gets the document of its sections back, and nothing is left over. */
  lemma ReadUndoesRender(k: Keys, memories: seq<Json>, excerpts: seq<Json>, notes: seq<string>, derived: seq<string>)
    ensures var document := Rendered(k, memories, excerpts, notes, derived);
            if memories == [] && excerpts == [] && notes == [] && derived == [] then document == ""
            else ReadValue(document) == Some((Document(k, memories, excerpts, notes, derived), ""))
  {
    var v := Document(k, memories, excerpts, notes, derived);
    ReadUndoesCompact(v, "");
    assert Compact(v) + "" == Compact(v);
  }

  /** The part of an entry a record shows. */
  predicate SameShown(a: seq<Entry>, b: seq<Entry>) {
    && |a| == |b|
    && forall i :: 0 <= i < |a| ==>
         a[i].sessionId == b[i].sessionId && a[i].date == b[i].date
         && a[i].chunkIndex == b[i].chunkIndex && a[i].text == b[i].text
  }

  lemma RecordDetermines(k: RecordKeys, iso: IsoDate, a: Entry, b: Entry)
    requires RecordOf(k, iso, a) == RecordOf(k, iso, b)
    ensures a.sessionId == b.sessionId && a.date == b.date && a.chunkIndex == b.chunkIndex && a.text == b.text
  {
    var x, y := RecordOf(k, iso, a).members, RecordOf(k, iso, b).members;
    assert x[0] == y[0] && x[1] == y[1];
    assert x[|x| - 1] == Member(k.text, JStr(a.text)) && x[|x| - 2] == Member(k.index, JNum(a.chunkIndex + 1));
    assert y[|y| - 1] == Member(k.text, JStr(b.text)) && y[|y| - 2] == Member(k.index, JNum(b.chunkIndex + 1));
  }

  lemma RecordsDetermine(iso: IsoDate, a: seq<Entry>, b: seq<Entry>)
    requires Records(iso, a) == Records(iso, b)
    ensures SameShown(a, b)
  {
    assert |Records(iso, a)| == |a| && |Records(iso, b)| == |b|;
    forall i | 0 <= i < |a|
      ensures a[i].sessionId == b[i].sessionId && a[i].date == b[i].date
      ensures a[i].chunkIndex == b[i].chunkIndex && a[i].text == b[i].text
    {
      assert Records(iso, a)[i] == Records(iso, b)[i];
      RecordDetermines(RECORD_KEYS, iso, a[i], b[i]);
    }
  }

  lemma StringsDetermine(a: seq<string>, b: seq<string>)
    requires Strings(a) == Strings(b)
    ensures a == b
  {
    assert |Strings(a)| == |a| && |Strings(b)| == |b|;
    forall i | 0 <= i < |a|
      ensures a[i] == b[i]
    {
      assert Strings(a)[i] == Strings(b)[i];
    }
  }

  lemma OptionalsDetermine(k: Keys, n1: seq<string>, d1: seq<string>, n2: seq<string>, d2: seq<string>)
    requires k.notes != k.timeline
    requires OptionalMember(k.notes, n1) + OptionalMember(k.timeline, d1)
          == OptionalMember(k.notes, n2) + OptionalMember(k.timeline, d2)
    ensures n1 == n2 && d1 == d2
  {
    var x := OptionalMember(k.notes, n1) + OptionalMember(k.timeline, d1);
    if n1 != [] {
      assert x[0].key == k.notes && x[0].value == JArr(Strings(n1));
    }
    if n2 != [] {
      assert x[0].key == k.notes && x[0].value == JArr(Strings(n2));
    }
    if d1 != [] {
      assert x[|x| - 1].key == k.timeline && x[|x| - 1].value == JArr(Strings(d1));
    }
    if d2 != [] {
      assert x[|x| - 1].key == k.timeline && x[|x| - 1].value == JArr(Strings(d2));
    }
    SameOptional(n1, n2);
    SameOptional(d1, d2);
  }

  lemma SameOptional(a: seq<string>, b: seq<string>)
    requires (a == [] <==> b == []) && (a != [] ==> Strings(a) == Strings(b))
    ensures a == b
  {
    if a != [] {
      StringsDetermine(a, b);
    }
  }

  lemma DocumentDetermines(k: Keys, m1: seq<Json>, e1: seq<Json>, n1: seq<string>, d1: seq<string>,
                           m2: seq<Json>, e2: seq<Json>, n2: seq<string>, d2: seq<string>)
    requires k.notes != k.timeline
    requires Document(k, m1, e1, n1, d1) == Document(k, m2, e2, n2, d2)
    ensures m1 == m2 && e1 == e2 && n1 == n2 && d1 == d2
  {
    var x, y := Document(k, m1, e1, n1, d1).members, Document(k, m2, e2, n2, d2).members;
    assert x[0] == y[0] && x[1] == y[1] && x[2..] == y[2..];
    OptionalsDetermine(k, n1, d1, n2, d2);
  }

  lemma RenderedDetermines(k: Keys, m1: seq<Json>, e1: seq<Json>, n1: seq<string>, d1: seq<string>,
                           m2: seq<Json>, e2: seq<Json>, n2: seq<string>, d2: seq<string>)
    requires k.notes != k.timeline
    requires Rendered(k, m1, e1, n1, d1) == Rendered(k, m2, e2, n2, d2)
    ensures m1 == m2 && e1 == e2 && n1 == n2 && d1 == d2
  {
    ReadUndoesRender(k, m1, e1, n1, d1);
    ReadUndoesRender(k, m2, e2, n2, d2);
    if Rendered(k, m1, e1, n1, d1) != "" {
      DocumentDetermines(k, m1, e1, n1, d1, m2, e2, n2, d2);
    }
  }

  /** No text can pass for another field: two contexts rendered to the same text have the same memories, notes and
      timeline, and show the same excerpts in the same order. */
  lemma ContextIsUnambiguous(iso: IsoDate, m1: seq<Json>, es1: seq<Entry>, n1: seq<string>, d1: seq<string>,
                             m2: seq<Json>, es2: seq<Entry>, n2: seq<string>, d2: seq<string>)
    requires Rendered(DOCUMENT_KEYS, m1, Records(iso, es1), n1, d1) == Rendered(DOCUMENT_KEYS, m2, Records(iso, es2), n2, d2)
    ensures m1 == m2 && SameShown(es1, es2) && n1 == n2 && d1 == d2
  {
    DifferentKeys();
    RenderedDetermines(DOCUMENT_KEYS, m1, Records(iso, es1), n1, d1, m2, Records(iso, es2), n2, d2);
    RecordsDetermine(iso, es1, es2);
  }

  lemma DifferentKeys()
    ensures DOCUMENT_KEYS.notes != DOCUMENT_KEYS.timeline
  {
    assert |DOCUMENT_KEYS.notes| != |DOCUMENT_KEYS.timeline|;
  }

  // ---------- what a reader finds under which key ----------

  /** The value under a key; of equal keys the last counts. */
  function Lookup(ms: seq<Member>, key: string): Option<Json> {
    if |ms| == 0 then None
    else if ms[|ms| - 1].key == key then Some(ms[|ms| - 1].value)
    else Lookup(ms[..|ms| - 1], key)
  }

  lemma {:induction false} LookupConcat(a: seq<Member>, b: seq<Member>, key: string)
    ensures Lookup(a + b, key) == if Lookup(b, key).Some? then Lookup(b, key) else Lookup(a, key)
  {
    if |b| == 0 {
      assert a + b == a;
    } else {
      assert (a + b)[..|a + b| - 1] == a + b[..|b| - 1];
      LookupConcat(a, b[..|b| - 1], key);
    }
  }

  lemma LookupOne(m: Member, key: string)
    ensures Lookup([m], key) == if m.key == key then Some(m.value) else None
  {
    assert [m][..0] == [] && Lookup([], key) == None;
  }

  function IsoMember(k: RecordKeys, iso: IsoDate, e: Entry): seq<Member> {
    match iso(e.date)
    case None => []
    case Some(d) => [Member(k.iso, JStr(d))]
  }

  lemma RecordLookup(k: RecordKeys, iso: IsoDate, e: Entry, key: string)
    ensures Lookup(RecordOf(k, iso, e).members, key)
         == if key == k.text then Some(JStr(e.text))
            else if key == k.index then Some(JNum(e.chunkIndex + 1))
            else if key == k.iso && iso(e.date).Some? then Some(JStr(iso(e.date).value))
            else if key == k.date then Some(JStr(e.date))
            else if key == k.session then Some(JStr(e.sessionId))
            else None
  {
    var session, date := Member(k.session, JStr(e.sessionId)), Member(k.date, JStr(e.date));
    var index, text := Member(k.index, JNum(e.chunkIndex + 1)), Member(k.text, JStr(e.text));
    var optional := IsoMember(k, iso, e);
    assert RecordOf(k, iso, e).members == [session] + [date] + optional + [index] + [text];
    LookupConcat([session], [date], key);
    LookupConcat([session] + [date], optional, key);
    LookupConcat([session] + [date] + optional, [index], key);
    LookupConcat([session] + [date] + optional + [index], [text], key);
    LookupOne(session, key);
    LookupOne(date, key);
    LookupOne(index, key);
    LookupOne(text, key);
    if iso(e.date).Some? {
      LookupOne(Member(k.iso, JStr(iso(e.date).value)), key);
    }
  }

  lemma DistinctRecordKeys()
    ensures var k := RECORD_KEYS;
            && k.session !in [k.text, k.index, k.iso, k.date] && k.date !in [k.text, k.index, k.iso]
            && k.iso !in [k.text, k.index] && k.index != k.text
  {
    var k := RECORD_KEYS;
    assert |k.session| == 10 && |k.date| == 4 && |k.iso| == 8 && |k.index| == 13 && |k.text| == 7;
  }

  /** An excerpt record says under each key what that key is for; the normalized date only where there is one. */
  lemma RecordFields(iso: IsoDate, e: Entry)
    ensures var ms := ExcerptRecord(iso, e).members;
            && Lookup(ms, "session_id") == Some(JStr(e.sessionId))
            && Lookup(ms, "date") == Some(JStr(e.date))
            && Lookup(ms, "date_iso") == (if iso(e.date).Some? then Some(JStr(iso(e.date).value)) else None)
            && Lookup(ms, "excerpt_index") == Some(JNum(e.chunkIndex + 1))
            && Lookup(ms, "excerpt") == Some(JStr(e.text))
  {
    var k := RECORD_KEYS;
    DistinctRecordKeys();
    RecordLookup(k, iso, e, k.session);
    RecordLookup(k, iso, e, k.date);
    RecordLookup(k, iso, e, k.iso);
    RecordLookup(k, iso, e, k.index);
    RecordLookup(k, iso, e, k.text);
  }

  lemma DocumentLookup(k: Keys, memories: seq<Json>, excerpts: seq<Json>, notes: seq<string>, derived: seq<string>, key: string)
    ensures Lookup(Document(k, memories, excerpts, notes, derived).members, key)
         == if key == k.timeline && derived != [] then Some(JArr(Strings(derived)))
            else if key == k.notes && notes != [] then Some(JArr(Strings(notes)))
            else if key == k.excerpts then Some(JArr(excerpts))
            else if key == k.memories then Some(JArr(memories))
            else None
  {
    var m, e := Member(k.memories, JArr(memories)), Member(k.excerpts, JArr(excerpts));
    var n, d := OptionalMember(k.notes, notes), OptionalMember(k.timeline, derived);
    assert Document(k, memories, excerpts, notes, derived).members == [m] + [e] + (n + d);
    LookupConcat([m] + [e], n + d, key);
    LookupConcat([m], [e], key);
    LookupConcat(n, d, key);
    LookupOne(m, key);
    LookupOne(e, key);
    if notes != [] {
      LookupOne(Member(k.notes, JArr(Strings(notes))), key);
    }
    if derived != [] {
      LookupOne(Member(k.timeline, JArr(Strings(derived))), key);
    }
  }

  lemma DistinctDocumentKeys()
    ensures var k := DOCUMENT_KEYS;
            k.memories !in [k.excerpts, k.notes, k.timeline] && k.excerpts !in [k.notes, k.timeline] && k.notes != k.timeline
  {
    var k := DOCUMENT_KEYS;
    assert |k.memories| == 8 && |k.excerpts| == 16 && |k.notes| == 5 && |k.timeline| == 16;
    assert k.excerpts[0] == 's' && k.timeline[0] == 'd';
  }

  /** A document says under each key what that key is for; notes and timeline only where there are any. */
  lemma DocumentFields(memories: seq<Json>, excerpts: seq<Json>, notes: seq<string>, derived: seq<string>)
    ensures var ms := Document(DOCUMENT_KEYS, memories, excerpts, notes, derived).members;
            && Lookup(ms, "memories") == Some(JArr(memories))
            && Lookup(ms, "session_excerpts") == Some(JArr(excerpts))
            && Lookup(ms, "notes") == (if notes == [] then None else Some(JArr(Strings(notes))))
            && Lookup(ms, "derived_timeline") == (if derived == [] then None else Some(JArr(Strings(derived))))
  {
    var k := DOCUMENT_KEYS;
    DistinctDocumentKeys();
    DocumentLookup(k, memories, excerpts, notes, derived, k.memories);
    DocumentLookup(k, memories, excerpts, notes, derived, k.excerpts);
    DocumentLookup(k, memories, excerpts, notes, derived, k.notes);
    DocumentLookup(k, memories, excerpts, notes, derived, k.timeline);
  }
}
