/** The byte stream hashed to identify a repository checkout: a header, then length-prefixed fields for the
    index and for every path in sorted order. The stream can be read back in one way only. Byte strings are
    strings with one character per byte. */
module Carrier {
  import opened Text
  import opened Wrappers
  import opened Ids
  import opened Lists

  type Bytes = string

  const HEADER: Bytes := "alice-carrier-snapshot-v1\0"
  const LENGTH_BYTES := 8

  /** What a snapshot says about one path. */
  datatype Entry = Entry(path: Bytes, kind: Bytes, mode: nat, payload: Bytes)

  // ---------- numbers ----------

  function Pow256(k: nat): (r: nat)
    ensures r > 0
  {
    if k == 0 then 1 else 256 * Pow256(k - 1)
  }

  /** `n.to_bytes(k, "big")`. */
  function BigEndian(n: nat, k: nat): (r: Bytes)
    requires n < Pow256(k)
    ensures |r| == k
  {
    if k == 0 then "" else BigEndian(n / 256, k - 1) + [(n % 256) as char]
  }

  function BigEndianValue(b: Bytes): nat {
    if b == "" then 0 else 256 * BigEndianValue(b[..|b| - 1]) + b[|b| - 1] as int
  }

  lemma {:induction false} BigEndianReads(n: nat, k: nat)
    requires n < Pow256(k)
    ensures BigEndianValue(BigEndian(n, k)) == n
  {
    if k > 0 {
      BigEndianReads(n / 256, k - 1);
      var b := BigEndian(n, k);
      assert b[..k - 1] == BigEndian(n / 256, k - 1);
    }
  }

  /** `f"{n:o}"`. */
  function Octal(n: nat): (r: Bytes)
    ensures |r| >= 1
  {
    (if n < 8 then "" else Octal(n / 8)) + [('0' as int + n % 8) as char]
  }

  function OctalValue(b: Bytes): int {
    if b == "" then 0 else 8 * OctalValue(b[..|b| - 1]) + (b[|b| - 1] as int - '0' as int)
  }

  lemma {:induction false} OctalReads(n: nat)
    ensures OctalValue(Octal(n)) == n
  {
    var b := Octal(n);
    if n < 8 {
      assert b[..|b| - 1] == "";
    } else {
      OctalReads(n / 8);
      assert b[..|b| - 1] == Octal(n / 8);
    }
  }

  // ---------- fields ----------

  /** A field whose length fits the prefix. */
  predicate Fits(field: Bytes) {
    |field| < Pow256(LENGTH_BYTES)
  }

  predicate AllFit(fields: seq<Bytes>) {
    forall i :: 0 <= i < |fields| ==> Fits(fields[i])
  }

  function Frame(field: Bytes): Bytes
    requires Fits(field)
  {
    BigEndian(|field|, LENGTH_BYTES) + field
  }

  function Frames(fields: seq<Bytes>): (r: seq<Bytes>)
    requires AllFit(fields)
    ensures |r| == |fields|
  {
    seq(|fields|, i requires 0 <= i < |fields| => Frame(fields[i]))
  }

  function Concat(parts: seq<Bytes>): Bytes {
    if |parts| == 0 then "" else Concat(parts[..|parts| - 1]) + parts[|parts| - 1]
  }

  function Encode(fields: seq<Bytes>): Bytes
    requires AllFit(fields)
  {
    Concat(Frames(fields))
  }

  /** The only way to read fields off a stream, None when it does not consist of whole fields. */
  function Decode(stream: Bytes): Option<seq<Bytes>>
    decreases |stream|
  {
    if stream == "" then Some([])
    else if |stream| < LENGTH_BYTES then None
    else
      var end := LENGTH_BYTES + BigEndianValue(stream[..LENGTH_BYTES]);
      if end > |stream| then None
      else
        var rest := Decode(stream[end..]);
        if rest.None? then None else Some([stream[LENGTH_BYTES..end]] + rest.value)
  }

  lemma FitTogether(a: seq<Bytes>, b: seq<Bytes>)
    ensures AllFit(a + b) <==> AllFit(a) && AllFit(b)
  {
    assert forall i :: 0 <= i < |a| ==> (a + b)[i] == a[i];
    assert forall i :: 0 <= i < |b| ==> (a + b)[|a| + i] == b[i];
  }

  lemma {:induction false} ConcatParts(a: seq<Bytes>, b: seq<Bytes>)
    ensures Concat(a + b) == Concat(a) + Concat(b)
  {
    if |b| == 0 {
      assert a + b == a;
    } else {
      var n := |b| - 1;
      assert (a + b)[..|a + b| - 1] == a + b[..n];
      ConcatParts(a, b[..n]);
    }
  }

  lemma EncodeConcat(a: seq<Bytes>, b: seq<Bytes>)
    requires AllFit(a) && AllFit(b)
    ensures AllFit(a + b) && Encode(a + b) == Encode(a) + Encode(b)
  {
    FitTogether(a, b);
    assert Frames(a + b) == Frames(a) + Frames(b);
    ConcatParts(Frames(a), Frames(b));
  }

  lemma ConcatOne(part: Bytes)
    ensures Concat([part]) == part
  {
    assert Concat([]) == "";
    assert [part][..0] == [];
  }

  lemma EncodeOne(field: Bytes)
    requires Fits(field)
    ensures Encode([field]) == Frame(field)
  {
    assert Frames([field]) == [Frame(field)];
    ConcatOne(Frame(field));
  }

  lemma EncodeFirst(fields: seq<Bytes>)
    requires AllFit(fields) && |fields| > 0
    ensures Encode(fields) == Frame(fields[0]) + Encode(fields[1..])
  {
    EncodeOne(fields[0]);
    EncodeConcat([fields[0]], fields[1..]);
    assert fields == [fields[0]] + fields[1..];
  }

  lemma DecodeFrame(field: Bytes, rest: Bytes)
    requires Fits(field)
    ensures var tail := Decode(rest);
            Decode(Frame(field) + rest) == if tail.None? then None else Some([field] + tail.value)
  {
    var stream := Frame(field) + rest;
    BigEndianReads(|field|, LENGTH_BYTES);
    assert stream[..LENGTH_BYTES] == BigEndian(|field|, LENGTH_BYTES);
    var end := LENGTH_BYTES + |field|;
    assert stream[LENGTH_BYTES..end] == field;
    assert stream[end..] == rest;
  }

  /** Decoding undoes encoding, for all fields shorter than 2^64 bytes. */
  lemma {:induction false} DecodeUndoesEncode(fields: seq<Bytes>)
    requires AllFit(fields)
    ensures Decode(Encode(fields)) == Some(fields)
  {
    if |fields| > 0 {
      EncodeFirst(fields);
      DecodeUndoesEncode(fields[1..]);
      DecodeFrame(fields[0], Encode(fields[1..]));
      assert [fields[0]] + fields[1..] == fields;
    }
  }

  // ---------- the stream ----------

  function EntryFields(e: Entry): seq<Bytes> {
    [e.path, e.kind, Octal(e.mode), e.payload]
  }

  function FieldsOf(index: Bytes, entries: seq<Entry>): (r: seq<Bytes>)
    ensures |r| == 1 + 4 * |entries|
  {
    if |entries| == 0 then [index]
    else FieldsOf(index, entries[..|entries| - 1]) + EntryFields(entries[|entries| - 1])
  }

  function Stream(index: Bytes, entries: seq<Entry>): Bytes
    requires AllFit(FieldsOf(index, entries))
  {
    HEADER + Encode(FieldsOf(index, entries))
  }

  function EntriesFor(paths: seq<Bytes>, read: Bytes -> Entry): (r: seq<Entry>)
    ensures |r| == |paths|
  {
    seq(|paths|, i requires 0 <= i < |paths| => read(paths[i]).(path := paths[i]))
  }

  lemma {:induction false} FieldsAgree(index1: Bytes, entries1: seq<Entry>, index2: Bytes, entries2: seq<Entry>)
    requires FieldsOf(index1, entries1) == FieldsOf(index2, entries2)
    ensures index1 == index2 && entries1 == entries2
  {
    var a, b := FieldsOf(index1, entries1), FieldsOf(index2, entries2);
    assert |entries1| == |entries2|;
    var n := |entries1|;
    if n == 0 {
      assert a[0] == index1 && b[0] == index2;
    } else {
      var m := 1 + 4 * (n - 1);
      assert a[..m] == FieldsOf(index1, entries1[..n - 1]);
      assert b[..m] == FieldsOf(index2, entries2[..n - 1]);
      FieldsAgree(index1, entries1[..n - 1], index2, entries2[..n - 1]);
      EntryAgrees(entries1[n - 1], entries2[n - 1], a[m..], b[m..]);
      assert entries1 == entries1[..n - 1] + [entries1[n - 1]];
      assert entries2 == entries2[..n - 1] + [entries2[n - 1]];
    }
  }

  lemma EntryAgrees(e1: Entry, e2: Entry, f1: seq<Bytes>, f2: seq<Bytes>)
    requires f1 == EntryFields(e1) && f2 == EntryFields(e2) && f1 == f2
    ensures e1 == e2
  {
    assert f1[0] == f2[0] && f1[1] == f2[1] && f1[2] == f2[2] && f1[3] == f2[3];
    OctalReads(e1.mode);
    OctalReads(e2.mode);
  }

  /** Equal streams come from equal snapshots: the same index and the same paths, in the same order, with the
      same entry types, modes and payloads. Nothing can move across a field boundary. */
  lemma StreamsDetermineSnapshots(index1: Bytes, entries1: seq<Entry>, index2: Bytes, entries2: seq<Entry>)
    requires AllFit(FieldsOf(index1, entries1)) && AllFit(FieldsOf(index2, entries2))
    requires Stream(index1, entries1) == Stream(index2, entries2)
    ensures index1 == index2 && entries1 == entries2
  {
    var a, b := FieldsOf(index1, entries1), FieldsOf(index2, entries2);
    SameTail(HEADER, Encode(a), Encode(b));
    DecodeUndoesEncode(a);
    DecodeUndoesEncode(b);
    FieldsAgree(index1, entries1, index2, entries2);
  }

  lemma SameTail(header: Bytes, a: Bytes, b: Bytes)
    requires header + a == header + b
    ensures a == b
  {
    assert (header + a)[|header|..] == a;
    assert (header + b)[|header|..] == b;
  }

  // ---------- what the stream looks like ----------

  /** The bytes of a stream, one field after another: index, then path, type, octal mode and payload of each entry,
      every field behind its length in eight bytes, most significant first. */
  function Fed(field: Bytes): Bytes {
    [Byte(|field|, 7), Byte(|field|, 6), Byte(|field|, 5), Byte(|field|, 4),
     Byte(|field|, 3), Byte(|field|, 2), Byte(|field|, 1), Byte(|field|, 0)] + field
  }

  /** Digit k of a number in base 256. */
  function Byte(n: nat, k: nat): char {
    (n / Pow256(k) % 256) as char
  }

  lemma DivDiv(n: nat, k: nat)
    ensures n / 256 / Pow256(k) == n / Pow256(k + 1)
  {
    var p := Pow256(k);
    var q := n / (256 * p);
    assert n == q * (256 * p) + n % (256 * p) && 0 <= n % (256 * p) < 256 * p;
    var r := n % (256 * p);
    assert n / 256 == q * p + r / 256 by {
      assert n == 256 * (q * p) + r;
    }
    assert 0 <= r / 256 < p;
    Quotient(n / 256, p, q, r / 256);
  }

  lemma Times(x: int, y: int, p: nat)
    ensures x * p - y * p == (x - y) * p
    ensures x > y ==> (x - y) * p >= p
  {
    if x > y {
      assert (x - y) * p == (x - y - 1) * p + p;
      assert (x - y - 1) * p >= 0;
    }
  }

  lemma QuotientBounds(n: nat, p: nat)
    requires p > 0
    ensures n / p * p <= n < n / p * p + p
  {
    assert n == n / p * p + n % p;
  }

  lemma Quotient(n: nat, p: nat, q: nat, r: nat)
    requires p > 0 && n == q * p + r && r < p
    ensures n / p == q
  {
    var d := n / p;
    QuotientBounds(n, p);
    Times(d, q, p);
    Times(q, d, p);
  }

  lemma {:induction false} BigEndianAt(n: nat, k: nat, i: nat)
    requires n < Pow256(k) && i < k
    ensures BigEndian(n, k)[i] == Byte(n, k - 1 - i)
  {
    if i < k - 1 {
      BigEndianAt(n / 256, k - 1, i);
      DivDiv(n, k - 2 - i);
    } else {
      assert Pow256(0) == 1;
    }
  }

  lemma FrameIsFed(field: Bytes)
    requires Fits(field)
    ensures Frame(field) == Fed(field)
  {
    forall i | 0 <= i < 8
      ensures BigEndian(|field|, 8)[i] == Byte(|field|, 7 - i)
    {
      BigEndianAt(|field|, 8, i);
    }
  }

  lemma EncodeFive(a: Bytes, b: Bytes, c: Bytes, d: Bytes, e: Bytes)
    requires Fits(a) && Fits(b) && Fits(c) && Fits(d) && Fits(e)
    ensures AllFit([a, b, c, d, e])
    ensures Encode([a, b, c, d, e]) == Frame(a) + Frame(b) + Frame(c) + Frame(d) + Frame(e)
  {
    assert [a, b, c, d, e][1..] == [b, c, d, e] && [b, c, d, e][1..] == [c, d, e];
    assert [c, d, e][1..] == [d, e] && [d, e][1..] == [e];
    EncodeFirst([a, b, c, d, e]);
    EncodeFirst([b, c, d, e]);
    EncodeFirst([c, d, e]);
    EncodeFirst([d, e]);
    EncodeOne(e);
  }

  lemma FieldsOfOne(index: Bytes, e: Entry)
    ensures FieldsOf(index, [e]) == [index, e.path, e.kind, Octal(e.mode), e.payload]
  {
    assert [e][..0] == [] && FieldsOf(index, []) == [index];
  }

  /** The stream of an index and one entry, byte by byte. */
  lemma StreamOfOne(index: Bytes, e: Entry)
    requires Fits(index) && Fits(e.path) && Fits(e.kind) && Fits(Octal(e.mode)) && Fits(e.payload)
    ensures AllFit(FieldsOf(index, [e]))
    ensures Stream(index, [e])
         == HEADER + (Fed(index) + Fed(e.path) + Fed(e.kind) + Fed(Octal(e.mode)) + Fed(e.payload))
  {
    FieldsOfOne(index, e);
    EncodeFive(index, e.path, e.kind, Octal(e.mode), e.payload);
    FrameIsFed(index);
    FrameIsFed(e.path);
    FrameIsFed(e.kind);
    FrameIsFed(Octal(e.mode));
    FrameIsFed(e.payload);
  }

  // ---------- the paths ----------

  /** A sorted list of these paths, each once. */
  ghost predicate Listing(paths: seq<Bytes>, members: set<Bytes>) {
    Distinct(paths) && SortedBy(paths, LexLe) && forall p :: p in paths <==> p in members
  }

  /** There is only one, whatever order the paths were listed in. */
  lemma ListingIsUnique(a: seq<Bytes>, b: seq<Bytes>, members: set<Bytes>)
    requires Listing(a, members) && Listing(b, members)
    ensures a == b
  {
    forall x, y | LexLe(x, y) && LexLe(y, x)
      ensures x == y
    {
      LexAntisymmetric(x, y);
    }
    forall x
      ensures LexLe(x, x)
    {
      LexTotal(x, x);
    }
    SameMembersSameBag(a, b);
    SortedIsUnique(a, b, LexLe);
  }

  method SnapshotPaths(current: seq<Bytes>, head: seq<Bytes>) returns (paths: seq<Bytes>)
    ensures Listing(paths, Members(current + head) - {""})
  {
    var listed := current + head;
    paths := SortedIds(set i | 0 <= i < |listed| && listed[i] != "" :: listed[i]);
  }

  // ---------- feeding the digest ----------

  class Digest {
    var fed: Bytes

    constructor (initial: Bytes)
      ensures fed == initial
    {
      fed := initial;
    }

    method Update(bytes: Bytes)
      modifies this
      ensures fed == old(fed) + bytes
    {
      fed := fed + bytes;
    }
  }

  /** `overflow`: the length does not fit in 8 bytes, and `to_bytes` raises. */
  method DigestField(digest: Digest, value: Bytes) returns (overflow: bool)
    modifies digest
    ensures overflow <==> !Fits(value)
    ensures !overflow ==> digest.fed == old(digest.fed) + Frame(value)
  {
    if |value| >= Pow256(LENGTH_BYTES) {
      return true;
    }
    digest.Update(BigEndian(|value|, LENGTH_BYTES));
    digest.Update(value);
    return false;
  }

  lemma EncodeStep(fields: seq<Bytes>, i: nat)
    requires i < |fields| && AllFit(fields[..i]) && Fits(fields[i])
    ensures AllFit(fields[..i + 1]) && Encode(fields[..i + 1]) == Encode(fields[..i]) + Frame(fields[i])
  {
    EncodeOne(fields[i]);
    EncodeConcat(fields[..i], [fields[i]]);
    assert fields[..i + 1] == fields[..i] + [fields[i]];
  }

  method DigestFields(digest: Digest, fields: seq<Bytes>) returns (overflow: bool)
    modifies digest
    ensures overflow <==> !AllFit(fields)
    ensures !overflow ==> digest.fed == old(digest.fed) + Encode(fields)
  {
    for i := 0 to |fields|
      invariant AllFit(fields[..i]) && digest.fed == old(digest.fed) + Encode(fields[..i])
    {
      overflow := DigestField(digest, fields[i]);
      if overflow {
        return;
      }
      EncodeStep(fields, i);
    }
    assert fields[..|fields|] == fields;
    return false;
  }

  lemma FieldsStep(index: Bytes, entries: seq<Entry>, i: nat)
    requires i < |entries|
    ensures FieldsOf(index, entries[..i + 1]) == FieldsOf(index, entries[..i]) + EntryFields(entries[i])
  {
    assert entries[..i + 1][..i] == entries[..i];
  }

  lemma {:induction false} PartsFit(index: Bytes, entries: seq<Entry>, i: nat)
    requires AllFit(FieldsOf(index, entries)) && i < |entries|
    ensures AllFit(EntryFields(entries[i]))
  {
    var n := |entries| - 1;
    var whole, before := FieldsOf(index, entries), FieldsOf(index, entries[..n]);
    assert whole == before + EntryFields(entries[n]);
    if i < n {
      forall k | 0 <= k < |before|
        ensures Fits(before[k])
      {
        assert before[k] == whole[k];
      }
      PartsFit(index, entries[..n], i);
    } else {
      forall k | 0 <= k < 4
        ensures Fits(EntryFields(entries[n])[k])
      {
        assert EntryFields(entries[n])[k] == whole[|before| + k];
      }
    }
  }

  lemma {:induction false} FirstIsIndex(index: Bytes, entries: seq<Entry>)
    ensures FieldsOf(index, entries)[0] == index
  {
    if |entries| > 0 {
      FirstIsIndex(index, entries[..|entries| - 1]);
    }
  }

  lemma StreamStep(index: Bytes, entries: seq<Entry>, i: nat)
    requires i < |entries|
    requires AllFit(FieldsOf(index, entries[..i])) && AllFit(EntryFields(entries[i]))
    ensures AllFit(FieldsOf(index, entries[..i + 1]))
    ensures Stream(index, entries[..i + 1]) == Stream(index, entries[..i]) + Encode(EntryFields(entries[i]))
  {
    FieldsStep(index, entries, i);
    EncodeConcat(FieldsOf(index, entries[..i]), EntryFields(entries[i]));
  }

  method DigestEntries(digest: Digest, index: Bytes, entries: seq<Entry>) returns (overflow: bool)
    requires Fits(index) && digest.fed == HEADER + Encode([index])
    modifies digest
    ensures overflow <==> !AllFit(FieldsOf(index, entries))
    ensures !overflow ==> digest.fed == Stream(index, entries)
  {
    assert FieldsOf(index, entries[..0]) == [index];
    for i := 0 to |entries|
      invariant AllFit(FieldsOf(index, entries[..i]))
      invariant digest.fed == Stream(index, entries[..i])
    {
      overflow := DigestFields(digest, EntryFields(entries[i]));
      if overflow {
        TooLong(index, entries, i);
        return;
      }
      StreamStep(index, entries, i);
    }
    assert entries[..|entries|] == entries;
    return false;
  }

  lemma TooLong(index: Bytes, entries: seq<Entry>, i: nat)
    requires i < |entries| && !AllFit(EntryFields(entries[i]))
    ensures !AllFit(FieldsOf(index, entries))
  {
    if AllFit(FieldsOf(index, entries)) {
      PartsFit(index, entries, i);
    }
  }

  /** The bytes hashed for a snapshot, None when a field is too long. */
  method CarrierSnapshotOnce(index: Bytes, paths: seq<Bytes>, read: Bytes -> Entry) returns (hashed: Option<Bytes>)
    ensures hashed.Some? <==> AllFit(FieldsOf(index, EntriesFor(paths, read)))
    ensures hashed.Some? ==> hashed.value == Stream(index, EntriesFor(paths, read))
  {
    var entries := EntriesFor(paths, read);
    var digest := new Digest(HEADER);
    var overflow := DigestField(digest, index);
    if overflow {
      FirstIsIndex(index, entries);
      assert !Fits(FieldsOf(index, entries)[0]);
      return None;
    }
    EncodeOne(index);
    overflow := DigestEntries(digest, index, entries);
    return if overflow then None else Some(digest.fed);
  }
}
