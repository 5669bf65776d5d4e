/**
 The fingerprint of a working tree (`source_tree_hash` in execution.rs): git's answers are
 decoded, length-prefixed and hashed, and files are looked up under their decoded names.
 The hash is a parameter; what is proved of the fingerprint needs only that it gives
 different values to the different byte strings it is actually applied to.
 */
module TreeHash {
  import opened Common
  import opened Utf8

  datatype Field = Field(name: Bytes, value: Bytes)

  const LENGTH_BYTES: nat := 8

  /** A Rust slice is no longer than an i64 can count, so its length fits the prefix. */
  predicate Countable(b: Bytes) { |b| <= I64_MAX }

  predicate CountableField(f: Field) { Countable(f.name) && Countable(f.value) }

  // ---------------------------------------------------------------- the byte stream

  function Power(n: nat): nat { if n == 0 then 1 else 256 * Power(n - 1) }

  /** `to_be_bytes` at the given width. */
  function BigEndian(n: nat, width: nat): (b: Bytes)
    ensures |b| == width
  {
    if width == 0 then [] else BigEndian(n / 256, width - 1) + [n % 256]
  }

  function Number(b: Bytes): nat {
    if b == [] then 0 else 256 * Number(b[..|b| - 1]) + b[|b| - 1]
  }

  lemma {:induction false} BigEndianReadsBack(n: nat, width: nat)
    requires n < Power(width)
    ensures Number(BigEndian(n, width)) == n
  {
    if width > 0 {
      assert n / 256 < Power(width - 1);
      BigEndianReadsBack(n / 256, width - 1);
      var b := BigEndian(n, width);
      assert b[..|b| - 1] == BigEndian(n / 256, width - 1);
    }
  }

  lemma LengthReadsBack(b: Bytes)
    requires Countable(b)
    ensures Number(BigEndian(|b|, LENGTH_BYTES)) == |b|
  {
    assert Power(8) == 0x1_0000_0000_0000_0000 by {
      assert Power(2) == 65536;
      assert Power(4) == 0x1_0000_0000;
      assert Power(6) == 0x1_0000_0000_0000;
    }
    BigEndianReadsBack(|b|, LENGTH_BYTES);
  }

  function Prefixed(b: Bytes): Bytes { BigEndian(|b|, LENGTH_BYTES) + b }

  /** What `append_field` feeds the digest, field after field. */
  function Encode(fields: seq<Field>): Bytes {
    if fields == [] then []
    else Prefixed(fields[0].name) + Prefixed(fields[0].value) + Encode(fields[1..])
  }

  /** A length-prefixed string and what follows it. */
  function TakePrefixed(stream: Bytes): Option<(Bytes, Bytes)> {
    if |stream| < LENGTH_BYTES then None
    else
      var length := Number(stream[..LENGTH_BYTES]);
      if |stream| < LENGTH_BYTES + length then None
      else Some((stream[LENGTH_BYTES..LENGTH_BYTES + length], stream[LENGTH_BYTES + length..]))
  }

  /** An independent reader of the stream. */
  function Decode(stream: Bytes): Option<seq<Field>>
    decreases |stream|
  {
    if stream == [] then Some([])
    else
      match TakePrefixed(stream)
      case None => None
      case Some((name, afterName)) =>
        match TakePrefixed(afterName)
        case None => None
        case Some((value, rest)) =>
          match Decode(rest)
          case None => None
          case Some(fields) => Some([Field(name, value)] + fields)
  }

  lemma TakesBack(b: Bytes, rest: Bytes)
    requires Countable(b)
    ensures TakePrefixed(Prefixed(b) + rest) == Some((b, rest))
  {
    LengthReadsBack(b);
    var stream := Prefixed(b) + rest;
    assert stream[..LENGTH_BYTES] == BigEndian(|b|, LENGTH_BYTES);
    assert stream[LENGTH_BYTES..LENGTH_BYTES + |b|] == b;
    assert stream[LENGTH_BYTES + |b|..] == rest;
  }

  /** The stream determines the fields it was made of. */
  lemma {:induction false} StreamDecodes(fields: seq<Field>)
    requires forall i :: 0 <= i < |fields| ==> CountableField(fields[i])
    ensures Decode(Encode(fields)) == Some(fields)
  {
    hide TakePrefixed, BigEndian, Prefixed, CountableField, Decode;
    if fields == [] {
      DecodesNothing();
    } else {
      var first := fields[0];
      var tail := Encode(fields[1..]);
      assert CountableField(first);
      StreamDecodes(fields[1..]);
      DecodesFirst(first, tail);
      assert Encode(fields) == Prefixed(first.name) + (Prefixed(first.value) + tail);
      assert [first] + fields[1..] == fields;
    }
  }

  lemma DecodesNothing()
    ensures Decode([]) == Some([])
  {
  }

  lemma DecodesFirst(first: Field, tail: Bytes)
    requires CountableField(first) && Decode(tail).Some?
    ensures Decode(Prefixed(first.name) + (Prefixed(first.value) + tail)) == Some([first] + Decode(tail).value)
  {
    hide TakePrefixed, BigEndian;
    var afterName := Prefixed(first.value) + tail;
    TakesBack(first.name, afterName);
    TakesBack(first.value, tail);
    assert |Prefixed(first.name) + afterName| > 0;
  }

  // ---------------------------------------------------------------- sorting the untracked paths

  predicate AtMost(a: Bytes, b: Bytes) {
    if a == [] then true
    else if b == [] then false
    else if a[0] != b[0] then a[0] < b[0]
    else AtMost(a[1..], b[1..])
  }

  lemma {:induction false} OrderTotal(a: Bytes, b: Bytes)
    ensures AtMost(a, b) || AtMost(b, a)
    ensures AtMost(a, b) && AtMost(b, a) ==> a == b
  {
    if a != [] && b != [] && a[0] == b[0] {
      OrderTotal(a[1..], b[1..]);
      assert a == [a[0]] + a[1..] && b == [b[0]] + b[1..];
    }
  }

  lemma {:induction false} OrderTransitive(a: Bytes, b: Bytes, c: Bytes)
    requires AtMost(a, b) && AtMost(b, c)
    ensures AtMost(a, c)
  {
    if a != [] && a[0] == b[0] == c[0] {
      OrderTransitive(a[1..], b[1..], c[1..]);
    }
  }

  predicate Ascending(paths: seq<Bytes>) {
    forall i, j :: 0 <= i < j < |paths| ==> AtMost(paths[i], paths[j])
  }

  function Insert(path: Bytes, sorted: seq<Bytes>): seq<Bytes> {
    if sorted == [] || AtMost(path, sorted[0]) then [path] + sorted else [sorted[0]] + Insert(path, sorted[1..])
  }

  /** `sort_unstable`, by any algorithm: the ascending arrangement. */
  function Sorted(paths: seq<Bytes>): seq<Bytes> {
    if paths == [] then [] else Insert(paths[0], Sorted(paths[1..]))
  }

  lemma {:induction false} InsertSorts(path: Bytes, sorted: seq<Bytes>)
    requires Ascending(sorted)
    ensures Ascending(Insert(path, sorted)) && multiset(Insert(path, sorted)) == multiset(sorted) + multiset{path}
  {
    hide AtMost;
    if sorted != [] {
      if AtMost(path, sorted[0]) {
        forall i | 0 <= i < |sorted| ensures AtMost(path, sorted[i]) {
          if i > 0 {
            OrderTransitive(path, sorted[0], sorted[i]);
          }
        }
      } else {
        OrderTotal(path, sorted[0]);
        InsertSorts(path, sorted[1..]);
        assert sorted == [sorted[0]] + sorted[1..];
        var rest := Insert(path, sorted[1..]);
        forall i | 0 <= i < |rest| ensures AtMost(sorted[0], rest[i]) {
          assert rest[i] in multiset(rest);
          assert rest[i] == path || rest[i] in sorted[1..];
        }
      }
    }
  }

  lemma {:induction false} SortedSorts(paths: seq<Bytes>)
    ensures Ascending(Sorted(paths)) && multiset(Sorted(paths)) == multiset(paths)
  {
    if paths != [] {
      SortedSorts(paths[1..]);
      InsertSorts(paths[0], Sorted(paths[1..]));
      assert paths == [paths[0]] + paths[1..];
    }
  }

  lemma FirstIsLeast(a: seq<Bytes>, b: seq<Bytes>)
    requires Ascending(a) && multiset(a) == multiset(b) && a != [] && b != []
    ensures AtMost(a[0], b[0])
  {
    hide AtMost;
    assert b[0] in multiset(a);
    var j :| 0 <= j < |a| && a[j] == b[0];
    if j == 0 {
      OrderTotal(a[0], a[0]);
    }
  }

  lemma SameFirst(a: seq<Bytes>, b: seq<Bytes>)
    requires Ascending(a) && Ascending(b) && multiset(a) == multiset(b) && a != [] && b != []
    ensures a[0] == b[0] && multiset(a[1..]) == multiset(b[1..])
  {
    hide AtMost, Ascending;
    FirstIsLeast(a, b);
    FirstIsLeast(b, a);
    OrderTotal(a[0], b[0]);
    assert a == [a[0]] + a[1..] && b == [b[0]] + b[1..];
    assert multiset(a[1..]) == multiset(a) - multiset{a[0]};
    assert multiset(b[1..]) == multiset(b) - multiset{b[0]};
  }

  /** An ascending arrangement of given paths is unique. */
  lemma {:induction false} AscendingUnique(a: seq<Bytes>, b: seq<Bytes>)
    requires Ascending(a) && Ascending(b) && multiset(a) == multiset(b)
    ensures a == b
  {
    hide AtMost;
    assert |a| == |multiset(a)| == |b|;
    if a != [] {
      SameFirst(a, b);
      assert Ascending(a[1..]) && Ascending(b[1..]);
      AscendingUnique(a[1..], b[1..]);
      assert a == [a[0]] + a[1..] && b == [b[0]] + b[1..];
    }
  }

  // ---------------------------------------------------------------- the fingerprint

  /** An untracked path with the file's contents, or none when it is not a regular file. */
  type Untracked = map<Bytes, Option<Bytes>>

  datatype Lockfile = Lockfile(name: Bytes, content: Bytes)

  /**
   What git and the file system hold, byte for byte. `others` are regular files git does
   not list as untracked; a lookup under a decoded name can meet one.
   */
  datatype Snapshot = Snapshot(
    identity: Bytes, head: Bytes, trackedDiff: Bytes, untracked: Untracked, others: map<Bytes, Bytes>,
    lockfiles: seq<Lockfile>)

  /** Git sees no difference between the trees, and neither do the lock files. */
  predicate SameForGit(s: Snapshot, t: Snapshot) { s.(others := map[]) == t.(others := map[]) }

  function Name(text: string): Bytes { seq(|text|, i requires 0 <= i < |text| => text[i] as int % 256) }

  const REPOSITORY := Name("repository")
  const HEAD := Name("head")
  const TRACKED_DIFF := Name("tracked_diff")
  const UNTRACKED_PATH := Name("untracked_path")
  const UNTRACKED_SHA256 := Name("untracked_sha256")
  const LOCKFILE_NAME := Name("lockfile_name")
  const LOCKFILE_CONTENT := Name("lockfile_content")

  /** The order git lists the untracked paths in. */
  predicate Lists(listing: seq<Bytes>, untracked: Untracked) { multiset(listing) == multiset(untracked.Keys) }

  function DecodeAll(paths: seq<Bytes>): seq<Bytes> { seq(|paths|, i requires 0 <= i < |paths| => Lossy(paths[i])) }

  /** `is_file` and `read` at a decoded path. */
  function Lookup(s: Snapshot, path: Bytes): Option<Bytes> {
    if path in s.untracked then s.untracked[path]
    else if path in s.others then Some(s.others[path])
    else None
  }

  /** One untracked path as the digest is given it. */
  datatype Entry = Entry(path: Bytes, content: Option<Bytes>)

  function Entries(s: Snapshot, paths: seq<Bytes>): seq<Entry> {
    seq(|paths|, i requires 0 <= i < |paths| => Entry(paths[i], Lookup(s, paths[i])))
  }

  /** Everything a fingerprint covers. */
  datatype Seen = Seen(identity: Bytes, head: Bytes, trackedDiff: Bytes, entries: seq<Entry>, lockfiles: seq<Lockfile>)

  function SeenBy(s: Snapshot, listing: seq<Bytes>): Seen {
    Seen(Lossy(s.identity), Lossy(s.head), Lossy(s.trackedDiff), Entries(s, Sorted(DecodeAll(listing))), s.lockfiles)
  }

  function EntryFields(hash: Bytes -> Bytes, entry: Entry): seq<Field> {
    [Field(UNTRACKED_PATH, entry.path)]
    + match entry.content case None => [] case Some(bytes) => [Field(UNTRACKED_SHA256, hash(bytes))]
  }

  function UntrackedFields(hash: Bytes -> Bytes, entries: seq<Entry>): seq<Field> {
    if entries == [] then [] else EntryFields(hash, entries[0]) + UntrackedFields(hash, entries[1..])
  }

  function LockfileFields(lockfiles: seq<Lockfile>): seq<Field> {
    if lockfiles == [] then []
    else [Field(LOCKFILE_NAME, lockfiles[0].name), Field(LOCKFILE_CONTENT, lockfiles[0].content)]
         + LockfileFields(lockfiles[1..])
  }

  function Fields(hash: Bytes -> Bytes, seen: Seen): seq<Field> {
    [Field(REPOSITORY, seen.identity), Field(HEAD, seen.head), Field(TRACKED_DIFF, seen.trackedDiff)]
    + UntrackedFields(hash, seen.entries) + LockfileFields(seen.lockfiles)
  }

  function SourceTreeHash(hash: Bytes -> Bytes, s: Snapshot, listing: seq<Bytes>): Bytes {
    hash(Encode(Fields(hash, SeenBy(s, listing))))
  }

  /** The contents a fingerprint covers. */
  function Contents(entries: seq<Entry>): set<Bytes> {
    set i | 0 <= i < |entries| && entries[i].content.Some? :: entries[i].content.value
  }

  /** Everything one fingerprint applies the hash to: the contents, and the stream of fields. */
  function Hashed(hash: Bytes -> Bytes, seen: Seen): set<Bytes> {
    Contents(seen.entries) + {Encode(Fields(hash, seen))}
  }

  /** No collision between these inputs. */
  ghost predicate NoCollision(hash: Bytes -> Bytes, a: set<Bytes>, b: set<Bytes>) {
    forall x, y :: x in a && y in b && hash(x) == hash(y) ==> x == y
  }

  /** Hash values fit a length prefix (those of SHA-256 are 64 characters). */
  ghost predicate CountableValues(hash: Bytes -> Bytes, inputs: set<Bytes>) {
    forall x :: x in inputs ==> Countable(hash(x))
  }

  /** The hash tells the inputs of the two fingerprints apart. */
  ghost predicate Separates(hash: Bytes -> Bytes, a: Seen, b: Seen) {
    && NoCollision(hash, Hashed(hash, a), Hashed(hash, b))
    && CountableValues(hash, Contents(a.entries)) && CountableValues(hash, Contents(b.entries))
  }

  predicate CountableSnapshot(s: Snapshot) {
    && Countable(Lossy(s.identity)) && Countable(Lossy(s.head)) && Countable(Lossy(s.trackedDiff))
    && (forall p :: p in s.untracked ==> Countable(Lossy(p)))
    && forall i :: 0 <= i < |s.lockfiles| ==> Countable(s.lockfiles[i].name) && Countable(s.lockfiles[i].content)
  }

  lemma ListedIsUntracked(listing: seq<Bytes>, untracked: Untracked, p: Bytes)
    requires Lists(listing, untracked)
    ensures p in listing <==> p in untracked
  {
    assert p in listing <==> p in multiset(listing);
    assert p in untracked.Keys <==> p in multiset(untracked.Keys);
  }

  lemma DecodeAppend(a: seq<Bytes>, b: seq<Bytes>)
    ensures DecodeAll(a + b) == DecodeAll(a) + DecodeAll(b)
  {
  }

  /** Taking one occurrence out of a sequence. */
  lemma Without(b: seq<Bytes>, i: nat)
    requires i < |b|
    ensures b == b[..i] + ([b[i]] + b[i + 1..])
    ensures multiset(b[..i] + b[i + 1..]) == multiset(b) - multiset{b[i]}
  {
    assert b == b[..i] + [b[i]] + b[i + 1..];
  }

  lemma {:induction false} DecodeAllCounts(a: seq<Bytes>, b: seq<Bytes>)
    requires multiset(a) == multiset(b)
    ensures multiset(DecodeAll(a)) == multiset(DecodeAll(b))
  {
    hide Lossy, DecodeAll;
    assert |a| == |multiset(a)| == |b|;
    if a == [] {
      assert a == b;
    } else {
      assert a[0] in multiset(b);
      var i :| 0 <= i < |b| && b[i] == a[0];
      Without(a, 0);
      Without(b, i);
      assert a[..0] + a[1..] == a[1..] && a == [a[0]] + a[1..];
      DecodeAllCounts(a[1..], b[..i] + b[i + 1..]);
      DecodeWithout(a, 0);
      DecodeWithout(b, i);
    }
  }

  /** Taking an occurrence out before decoding takes its decoding out after. */
  lemma DecodeWithout(b: seq<Bytes>, i: nat)
    requires i < |b|
    ensures multiset(DecodeAll(b)) == multiset(DecodeAll(b[..i] + b[i + 1..])) + multiset(DecodeAll([b[i]]))
  {
    hide Lossy, DecodeAll;
    Without(b, i);
    DecodeAppend(b[..i], [b[i]] + b[i + 1..]);
    DecodeAppend([b[i]], b[i + 1..]);
    DecodeAppend(b[..i], b[i + 1..]);
  }

  /** The order git lists untracked files in does not matter. */
  lemma ListingOrderIrrelevant(s: Snapshot, listing: seq<Bytes>, other: seq<Bytes>)
    requires Lists(listing, s.untracked) && Lists(other, s.untracked)
    ensures SeenBy(s, listing) == SeenBy(s, other)
  {
    hide Lossy, Sorted, Ascending;
    DecodeAllCounts(listing, other);
    SortedSorts(DecodeAll(listing));
    SortedSorts(DecodeAll(other));
    AscendingUnique(Sorted(DecodeAll(listing)), Sorted(DecodeAll(other)));
  }

  lemma NamesDiffer()
    ensures UNTRACKED_PATH != UNTRACKED_SHA256 && UNTRACKED_PATH != LOCKFILE_NAME && UNTRACKED_SHA256 != LOCKFILE_NAME
  {
    assert |UNTRACKED_PATH| == 14 && |UNTRACKED_SHA256| == 16 && |LOCKFILE_NAME| == 13;
  }

  lemma {:induction false} LockfilesDetermined(a: seq<Lockfile>, b: seq<Lockfile>)
    requires LockfileFields(a) == LockfileFields(b)
    ensures a == b
  {
    if a != [] && b != [] {
      assert LockfileFields(a)[2..] == LockfileFields(a[1..]);
      assert LockfileFields(b)[2..] == LockfileFields(b[1..]);
      LockfilesDetermined(a[1..], b[1..]);
      assert a[0].name == LockfileFields(a)[0].value && b[0].name == LockfileFields(b)[0].value;
      assert a[0].content == LockfileFields(a)[1].value && b[0].content == LockfileFields(b)[1].value;
      assert a == [a[0]] + a[1..] && b == [b[0]] + b[1..];
    }
  }

  lemma FirstName(hash: Bytes -> Bytes, entries: seq<Entry>, rest: seq<Lockfile>)
    ensures var x := UntrackedFields(hash, entries) + LockfileFields(rest);
      if entries != [] then x != [] && x[0].name == UNTRACKED_PATH
      else if rest != [] then x != [] && x[0].name == LOCKFILE_NAME else x == []
  {
  }

  lemma UntrackedStep(hash: Bytes -> Bytes, entries: seq<Entry>)
    requires entries != []
    ensures UntrackedFields(hash, entries) == EntryFields(hash, entries[0]) + UntrackedFields(hash, entries[1..])
  {
  }

  /** What the first untracked path contributes, and that it can be told apart from what follows. */
  lemma FirstEntry(hash: Bytes -> Bytes, entries: seq<Entry>, rest: seq<Lockfile>)
    requires entries != []
    ensures var x := UntrackedFields(hash, entries) + LockfileFields(rest);
      var used := |EntryFields(hash, entries[0])|;
      && used == (if entries[0].content.Some? then 2 else 1) <= |x|
      && x[0].value == entries[0].path
      && (entries[0].content.Some? <==> |x| > 1 && x[1].name == UNTRACKED_SHA256)
      && (entries[0].content.Some? ==> x[1].value == hash(entries[0].content.value))
      && x[used..] == UntrackedFields(hash, entries[1..]) + LockfileFields(rest)
  {
    hide UntrackedFields, LockfileFields, Name;
    UntrackedStep(hash, entries);
    NamesDiffer();
    FirstName(hash, entries[1..], rest);
    var x := UntrackedFields(hash, entries) + LockfileFields(rest);
    var first := EntryFields(hash, entries[0]);
    var tail := UntrackedFields(hash, entries[1..]) + LockfileFields(rest);
    assert x == first + tail;
  }

  lemma NoneLeft(hash: Bytes -> Bytes, entries: seq<Entry>, rest: seq<Lockfile>)
    ensures entries == [] ==> UntrackedFields(hash, entries) + LockfileFields(rest) == LockfileFields(rest)
  {
  }

  /** From the untracked fields and what follows them, both the paths and their contents can be read off. */
  lemma {:induction false} UntrackedDetermined(
      hash: Bytes -> Bytes, a: seq<Entry>, la: seq<Lockfile>, b: seq<Entry>, lb: seq<Lockfile>)
    requires NoCollision(hash, Contents(a), Contents(b))
    requires UntrackedFields(hash, a) + LockfileFields(la) == UntrackedFields(hash, b) + LockfileFields(lb)
    ensures a == b && LockfileFields(la) == LockfileFields(lb)
    decreases |a|
  {
    hide UntrackedFields, LockfileFields, EntryFields, Name, Contents;
    NamesDiffer();
    FirstName(hash, a, la);
    FirstName(hash, b, lb);
    NoneLeft(hash, a, la);
    NoneLeft(hash, b, lb);
    if a != [] && b != [] {
      FirstEntry(hash, a, la);
      FirstEntry(hash, b, lb);
      ContentsStep(a);
      ContentsStep(b);
      UntrackedDetermined(hash, a[1..], la, b[1..], lb);
      assert a == [a[0]] + a[1..] && b == [b[0]] + b[1..];
    }
  }

  lemma ContentsStep(entries: seq<Entry>)
    requires entries != []
    ensures Contents(entries)
      == Contents(entries[1..]) + match entries[0].content case None => {} case Some(bytes) => {bytes}
  {
    var rest := entries[1..];
    assert forall i :: 0 < i < |entries| ==> entries[i] == rest[i - 1];
    assert forall i :: 0 <= i < |rest| ==> rest[i] == entries[i + 1];
  }

  lemma {:induction false} CountableUntracked(hash: Bytes -> Bytes, entries: seq<Entry>)
    requires CountableValues(hash, Contents(entries))
    requires forall i :: 0 <= i < |entries| ==> Countable(entries[i].path)
    ensures forall i :: 0 <= i < |UntrackedFields(hash, entries)| ==> CountableField(UntrackedFields(hash, entries)[i])
  {
    if entries != [] {
      assert |UNTRACKED_PATH| == 14 && |UNTRACKED_SHA256| == 16;
      ContentsStep(entries);
      CountableUntracked(hash, entries[1..]);
    }
  }

  lemma {:induction false} CountableLockfiles(lockfiles: seq<Lockfile>)
    requires forall i :: 0 <= i < |lockfiles| ==> Countable(lockfiles[i].name) && Countable(lockfiles[i].content)
    ensures forall i :: 0 <= i < |LockfileFields(lockfiles)| ==> CountableField(LockfileFields(lockfiles)[i])
  {
    if lockfiles != [] {
      assert |LOCKFILE_NAME| == 13 && |LOCKFILE_CONTENT| == 16;
      CountableLockfiles(lockfiles[1..]);
    }
  }

  lemma SortedDecoded(s: Snapshot, listing: seq<Bytes>, i: nat)
    requires Lists(listing, s.untracked) && i < |Sorted(DecodeAll(listing))|
    ensures exists p :: p in s.untracked && Sorted(DecodeAll(listing))[i] == Lossy(p)
  {
    hide Lossy, Sorted, Ascending;
    var decoded := DecodeAll(listing);
    SortedSorts(decoded);
    assert Sorted(decoded)[i] in multiset(Sorted(decoded));
    var k :| 0 <= k < |decoded| && decoded[k] == Sorted(decoded)[i];
    ListedIsUntracked(listing, s.untracked, listing[k]);
    assert listing[k] in s.untracked;
  }

  lemma FieldsCountable(hash: Bytes -> Bytes, s: Snapshot, listing: seq<Bytes>)
    requires CountableValues(hash, Contents(SeenBy(s, listing).entries)) && CountableSnapshot(s)
    requires Lists(listing, s.untracked)
    ensures var fields := Fields(hash, SeenBy(s, listing)); forall i :: 0 <= i < |fields| ==> CountableField(fields[i])
  {
    hide Lossy, Sorted, UntrackedFields, LockfileFields, Lists, Contents;
    var paths := Sorted(DecodeAll(listing));
    forall i | 0 <= i < |paths| ensures Countable(paths[i]) {
      SortedDecoded(s, listing, i);
    }
    CountableUntracked(hash, Entries(s, paths));
    CountableLockfiles(s.lockfiles);
    assert |REPOSITORY| == 10 && |HEAD| == 4 && |TRACKED_DIFF| == 12;
  }

  lemma SameFieldsSameSeen(hash: Bytes -> Bytes, a: Seen, b: Seen)
    requires NoCollision(hash, Contents(a.entries), Contents(b.entries)) && Fields(hash, a) == Fields(hash, b)
    ensures a == b
  {
    hide NoCollision, Contents, UntrackedFields, LockfileFields, Name;
    var x, y := Fields(hash, a), Fields(hash, b);
    var restA := UntrackedFields(hash, a.entries) + LockfileFields(a.lockfiles);
    var restB := UntrackedFields(hash, b.entries) + LockfileFields(b.lockfiles);
    assert x == [Field(REPOSITORY, a.identity), Field(HEAD, a.head), Field(TRACKED_DIFF, a.trackedDiff)] + restA;
    assert y == [Field(REPOSITORY, b.identity), Field(HEAD, b.head), Field(TRACKED_DIFF, b.trackedDiff)] + restB;
    assert x[0].value == a.identity && x[1].value == a.head && x[2].value == a.trackedDiff;
    assert y[0].value == b.identity && y[1].value == b.head && y[2].value == b.trackedDiff;
    assert x[3..] == restA && y[3..] == restB;
    UntrackedDetermined(hash, a.entries, a.lockfiles, b.entries, b.lockfiles);
    LockfilesDetermined(a.lockfiles, b.lockfiles);
  }

  /** Short of a collision, equal fingerprints exactly when the decoded answers and lookups are the same. */
  lemma FingerprintCovers(hash: Bytes -> Bytes, s: Snapshot, t: Snapshot, listing: seq<Bytes>, other: seq<Bytes>)
    requires CountableSnapshot(s) && CountableSnapshot(t)
    requires Lists(listing, s.untracked) && Lists(other, t.untracked)
    requires Separates(hash, SeenBy(s, listing), SeenBy(t, other))
    ensures SourceTreeHash(hash, s, listing) == SourceTreeHash(hash, t, other) <==> SeenBy(s, listing) == SeenBy(t, other)
  {
    hide Encode, Decode, SeenBy, Fields, CountableField, CountableSnapshot, Lists, Contents, CountableValues;
    if SourceTreeHash(hash, s, listing) == SourceTreeHash(hash, t, other) {
      FieldsCountable(hash, s, listing);
      FieldsCountable(hash, t, other);
      StreamDecodes(Fields(hash, SeenBy(s, listing)));
      StreamDecodes(Fields(hash, SeenBy(t, other)));
      SameFieldsSameSeen(hash, SeenBy(s, listing), SeenBy(t, other));
    }
  }

  /** A hash as good as any: its own input, when that can be counted. */
  function Itself(b: Bytes): Bytes { if Countable(b) then b else [] }

  /** It tells all inputs apart that can be counted. */
  lemma ItselfSeparates(a: Seen, b: Seen)
    requires forall x :: x in Hashed(Itself, a) || x in Hashed(Itself, b) ==> Countable(x)
    ensures Separates(Itself, a, b)
  {
    hide Encode, Fields, Contents;
  }

  /** A repository with nothing but a head. */
  function WithHead(head: Bytes): Snapshot { Snapshot([], head, [], map[], map[], []) }

  lemma BareTree(head: Bytes)
    requires head == [] || head == [65]
    ensures var s := WithHead(head);
      && Lists([], s.untracked) && CountableSnapshot(s) && Readable(s) && SeenBy(s, []) == Seen([], head, [], [], [])
    ensures forall x :: x in Hashed(Itself, Seen([], head, [], [], [])) ==> Countable(x)
  {
    hide Encode, Sorted, Lossy, Name;
    FixedExactly(head);
    FixedExactly([]);
    assert DecodeAll([]) == [];
    NothingSorted();
    var fields := Fields(Itself, Seen([], head, [], [], []));
    assert fields == [Field(REPOSITORY, []), Field(HEAD, head), Field(TRACKED_DIFF, [])];
    FieldNames();
    EncodedLength(fields);
  }

  lemma NothingSorted()
    ensures Sorted([]) == []
  {
  }

  lemma FieldNames()
    ensures |REPOSITORY| == 10 && |HEAD| == 4 && |TRACKED_DIFF| == 12
  {
  }

  lemma {:induction false} EncodedLength(fields: seq<Field>)
    requires forall i :: 0 <= i < |fields| ==> |fields[i].name| <= 12 && |fields[i].value| <= 1
    ensures |Encode(fields)| <= 29 * |fields|
  {
    if fields != [] {
      EncodedLength(fields[1..]);
    }
  }

  // ---------------------------------------------------------------- when decoding loses nothing

  /** Every answer of git is well-formed UTF-8. */
  predicate Readable(s: Snapshot) {
    Valid(s.identity) && Valid(s.head) && Valid(s.trackedDiff) && forall p :: p in s.untracked ==> Valid(p)
  }

  /** And none contains U+FFFD. */
  predicate PlainSnapshot(s: Snapshot) {
    Plain(s.identity) && Plain(s.head) && Plain(s.trackedDiff) && forall p :: p in s.untracked ==> Plain(p)
  }

  lemma DecodeFixed(paths: seq<Bytes>)
    requires forall p :: p in paths ==> Valid(p)
    ensures DecodeAll(paths) == paths
  {
    hide Lossy, Valid;
    forall i | 0 <= i < |paths| ensures Lossy(paths[i]) == paths[i] {
      assert paths[i] in paths;
      FixedExactly(paths[i]);
    }
  }

  lemma SameEntriesSamePaths(s: Snapshot, t: Snapshot, a: seq<Bytes>, b: seq<Bytes>)
    requires Entries(s, a) == Entries(t, b)
    ensures a == b && forall i :: 0 <= i < |a| ==> Lookup(s, a[i]) == Lookup(t, a[i])
  {
    hide Lookup;
    assert |Entries(s, a)| == |a| && |Entries(t, b)| == |b|;
    forall i | 0 <= i < |a| ensures a[i] == b[i] && Lookup(s, a[i]) == Lookup(t, b[i]) {
      assert Entries(s, a)[i] == Entries(t, b)[i];
    }
  }

  /** Trees whose listings decode to themselves and that were seen alike have the same untracked files. */
  lemma SeenAlike(s: Snapshot, t: Snapshot, listing: seq<Bytes>, other: seq<Bytes>)
    requires Lists(listing, s.untracked) && Lists(other, t.untracked)
    requires DecodeAll(listing) == listing && DecodeAll(other) == other
    requires Entries(s, Sorted(listing)) == Entries(t, Sorted(other))
    ensures s.untracked == t.untracked
  {
    hide Lossy, Sorted, Ascending, DecodeAll;
    var paths := Sorted(listing);
    SameEntriesSamePaths(s, t, paths, Sorted(other));
    SortedSorts(listing);
    SortedSorts(other);
    forall p ensures (p in s.untracked <==> p in paths) && (p in t.untracked <==> p in paths) {
      ListedIsUntracked(listing, s.untracked, p);
      ListedIsUntracked(other, t.untracked, p);
      assert p in paths <==> p in multiset(paths);
      assert p in listing <==> p in multiset(listing);
      assert p in other <==> p in multiset(other);
    }
    forall p | p in s.untracked ensures s.untracked[p] == t.untracked[p] {
      var i :| 0 <= i < |paths| && paths[i] == p;
      assert Lookup(s, paths[i]) == Lookup(t, paths[i]);
    }
    assert s.untracked == t.untracked;
  }

  lemma ListedValid(s: Snapshot, listing: seq<Bytes>)
    requires Lists(listing, s.untracked) && forall p :: p in s.untracked ==> Valid(p)
    ensures DecodeAll(listing) == listing
  {
    hide Valid, Lists;
    forall p | p in listing ensures Valid(p) {
      ListedIsUntracked(listing, s.untracked, p);
    }
    DecodeFixed(listing);
  }

  /** A readable tree is seen as it is, whatever other files there are. */
  lemma OthersUnseen(s: Snapshot, listing: seq<Bytes>, others: map<Bytes, Bytes>)
    requires Lists(listing, s.untracked) && forall p :: p in s.untracked ==> Valid(p)
    ensures SeenBy(s.(others := others), listing) == SeenBy(s, listing)
  {
    hide Lossy, Sorted, Valid, Ascending;
    ListedValid(s, listing);
    SortedSorts(listing);
    var paths := Sorted(listing);
    forall i | 0 <= i < |paths| ensures Lookup(s.(others := others), paths[i]) == Lookup(s, paths[i]) {
      assert paths[i] in multiset(paths);
      ListedIsUntracked(listing, s.untracked, paths[i]);
    }
    assert Entries(s.(others := others), paths) == Entries(s, paths);
  }

  /**
   Among trees git can describe in UTF-8, and short of a collision, equal fingerprints
   exactly when git sees no difference.
   */
  lemma FingerprintIsExact(hash: Bytes -> Bytes, s: Snapshot, t: Snapshot, listing: seq<Bytes>, other: seq<Bytes>)
    requires CountableSnapshot(s) && CountableSnapshot(t) && Readable(s) && Readable(t)
    requires Lists(listing, s.untracked) && Lists(other, t.untracked)
    requires Separates(hash, SeenBy(s, listing), SeenBy(t, other))
    ensures SourceTreeHash(hash, s, listing) == SourceTreeHash(hash, t, other) <==> SameForGit(s, t)
  {
    hide Separates, Sorted, Lossy, Valid, CountableSnapshot, SourceTreeHash, Lists, DecodeAll;
    FingerprintCovers(hash, s, t, listing, other);
    ListedValid(s, listing);
    ListedValid(t, other);
    FixedExactly(s.identity);
    FixedExactly(s.head);
    FixedExactly(s.trackedDiff);
    FixedExactly(t.identity);
    FixedExactly(t.head);
    FixedExactly(t.trackedDiff);
    if SeenBy(s, listing) == SeenBy(t, other) {
      SeenAlike(s, t, listing, other);
    }
    if SameForGit(s, t) {
      OthersUnseen(s, listing, t.others);
      assert s.(others := t.others) == t;
      ListingOrderIrrelevant(t, listing, other);
    }
  }

  // ---------------------------------------------------------------- exactly which trees are identified

  /** No tree git sees otherwise has this tree's fingerprint, short of a collision with it. */
  ghost predicate Identified(hash: Bytes -> Bytes, s: Snapshot, listing: seq<Bytes>) {
    forall t: Snapshot, other: seq<Bytes> |
      CountableSnapshot(t) && Lists(other, t.untracked) && Separates(hash, SeenBy(s, listing), SeenBy(t, other))
      && SourceTreeHash(hash, s, listing) == SourceTreeHash(hash, t, other) :: SameForGit(s, t)
  }

  lemma PlainSeenAlike(s: Snapshot, t: Snapshot, listing: seq<Bytes>, other: seq<Bytes>)
    requires Lists(listing, s.untracked) && Lists(other, t.untracked) && PlainSnapshot(s)
    requires SeenBy(s, listing) == SeenBy(t, other)
    ensures SameForGit(s, t)
  {
    hide Sorted, Lossy, Valid, HasReplacement, Lists, DecodeAll, Entries;
    OnlySpelling(s.identity, t.identity);
    OnlySpelling(s.head, t.head);
    OnlySpelling(s.trackedDiff, t.trackedDiff);
    ListedValid(s, listing);
    OnlyListing(s, t, listing, other);
    SeenAlike(s, t, listing, other);
  }

  lemma OnlySpelling(b: Bytes, other: Bytes)
    requires Plain(b) && Lossy(b) == Lossy(other)
    ensures b == other && Lossy(b) == b
  {
    FixedExactly(b);
    PlainIsUnique(other);
  }

  lemma OnlyListing(s: Snapshot, t: Snapshot, listing: seq<Bytes>, other: seq<Bytes>)
    requires Lists(listing, s.untracked) && DecodeAll(listing) == listing
    requires forall p :: p in s.untracked ==> Plain(p)
    requires Entries(s, Sorted(listing)) == Entries(t, Sorted(DecodeAll(other)))
    ensures DecodeAll(other) == other
  {
    hide Lossy, Valid, HasReplacement, Sorted, Ascending, Lists;
    SameEntriesSamePaths(s, t, Sorted(listing), Sorted(DecodeAll(other)));
    SortedSorts(listing);
    SortedSorts(DecodeAll(other));
    forall i | 0 <= i < |other| ensures Lossy(other[i]) == other[i] {
      assert DecodeAll(other)[i] in multiset(DecodeAll(other));
      ListedIsUntracked(listing, s.untracked, Lossy(other[i]));
      FixedExactly(other[i]);
      OnlySpelling(Lossy(other[i]), other[i]);
    }
  }

  /** The same tree with the path spelled so that it decodes alike, and its file in the decoded place. */
  function Respelled(s: Snapshot, p: Bytes, q: Bytes): Snapshot
    requires p in s.untracked
  {
    s.(untracked := (s.untracked - {p})[q := None],
       others := match s.untracked[p] case Some(content) => s.others[p := content] case None => s.others - {p})
  }

  lemma Swapped(listing: seq<Bytes>, i: nat, q: Bytes)
    requires i < |listing|
    ensures multiset(listing[i := q]) == multiset(listing) - multiset{listing[i]} + multiset{q}
  {
    Without(listing, i);
    Without(listing[i := q], i);
    assert listing[i := q][..i] == listing[..i] && listing[i := q][i + 1..] == listing[i + 1..];
  }

  lemma RespelledListing(s: Snapshot, listing: seq<Bytes>, p: Bytes, q: Bytes) returns (other: seq<Bytes>)
    requires Lists(listing, s.untracked) && p in s.untracked && q !in s.untracked && Lossy(q) == Lossy(p)
    ensures Lists(other, Respelled(s, p, q).untracked) && DecodeAll(other) == DecodeAll(listing)
  {
    hide Lossy, Lookup;
    ListedIsUntracked(listing, s.untracked, p);
    var i :| 0 <= i < |listing| && listing[i] == p;
    other := listing[i := q];
    Swapped(listing, i, q);
    SwapKey(s.untracked.Keys, p, q);
    RespelledKeys(s, p, q);
  }

  lemma RespelledKeys(s: Snapshot, p: Bytes, q: Bytes)
    requires p in s.untracked && q !in s.untracked
    ensures Respelled(s, p, q).untracked.Keys == s.untracked.Keys - {p} + {q}
  {
  }

  lemma SwapKey(keys: set<Bytes>, p: Bytes, q: Bytes)
    requires p in keys && q !in keys
    ensures multiset(keys - {p} + {q}) == multiset(keys) - multiset{p} + multiset{q}
  {
  }

  lemma RespelledSeen(s: Snapshot, listing: seq<Bytes>, p: Bytes, q: Bytes) returns (other: seq<Bytes>)
    requires Lists(listing, s.untracked) && p in s.untracked && Lossy(q) == p && !Valid(q)
    requires forall x :: x in s.untracked ==> Valid(x)
    ensures Lists(other, Respelled(s, p, q).untracked) && SeenBy(s, listing) == SeenBy(Respelled(s, p, q), other)
  {
    hide Lossy, Valid, Sorted, Ascending, Lists, DecodeAll, Respelled;
    FixedExactly(q);
    other := RespelledListing(s, listing, p, q);
    ListedValid(s, listing);
    SortedSorts(listing);
    var paths := Sorted(listing);
    forall k | 0 <= k < |paths| ensures Lookup(s, paths[k]) == Lookup(Respelled(s, p, q), paths[k]) {
      assert paths[k] in multiset(paths);
      ListedIsUntracked(listing, s.untracked, paths[k]);
      RespelledLookup(s, p, q, paths[k]);
    }
    assert Entries(s, paths) == Entries(Respelled(s, p, q), paths);
    RespelledAnswers(s, p, q);
  }

  lemma RespelledLookup(s: Snapshot, p: Bytes, q: Bytes, path: Bytes)
    requires p in s.untracked && path in s.untracked && path != q
    ensures Lookup(s, path) == Lookup(Respelled(s, p, q), path)
  {
  }

  lemma RespelledAnswers(s: Snapshot, p: Bytes, q: Bytes)
    requires p in s.untracked
    ensures var t := Respelled(s, p, q);
      t.identity == s.identity && t.head == s.head && t.trackedDiff == s.trackedDiff && t.lockfiles == s.lockfiles
  {
  }

  /** The same tree with other contents under a name no decoding produces. */
  function Rewritten(s: Snapshot, p: Bytes): Snapshot {
    s.(untracked := s.untracked[p := if p in s.untracked && s.untracked[p] == Some([]) then None else Some([])])
  }

  lemma RewrittenSeen(s: Snapshot, listing: seq<Bytes>, p: Bytes)
    requires Lists(listing, s.untracked) && p in s.untracked && !Valid(p)
    ensures Lists(listing, Rewritten(s, p).untracked) && SeenBy(s, listing) == SeenBy(Rewritten(s, p), listing)
    ensures !SameForGit(s, Rewritten(s, p))
  {
    hide Lossy, Valid, Sorted, Ascending;
    var t := Rewritten(s, p);
    assert t.untracked.Keys == s.untracked.Keys;
    assert t.untracked[p] != s.untracked[p];
    var paths := Sorted(DecodeAll(listing));
    forall k | 0 <= k < |paths| ensures Lookup(s, paths[k]) == Lookup(t, paths[k]) {
      SortedDecoded(s, listing, k);
      var x :| x in s.untracked && paths[k] == Lossy(x);
      LossyIsValid(x);
      assert paths[k] != p;
    }
    assert Entries(s, paths) == Entries(t, paths);
  }

  lemma AnswerRespelled(b: Bytes) returns (other: Bytes)
    requires !Plain(b)
    ensures other != b && Lossy(other) == Lossy(b)
  {
    NotPlainExactly(b);
    other :| Lossy(other) == Lossy(b) && other != b;
  }

  /**
   A tree's fingerprint is its own if and only if every answer of git about it is
   well-formed UTF-8 without U+FFFD: the answers of any other tree decode like another's.
   */
  lemma IdentifiedExactly(hash: Bytes -> Bytes, s: Snapshot, listing: seq<Bytes>)
    requires CountableSnapshot(s) && Lists(listing, s.untracked)
    requires Separates(hash, SeenBy(s, listing), SeenBy(s, listing))
    ensures Identified(hash, s, listing) <==> PlainSnapshot(s)
  {
    hide Separates, SeenBy, Lossy, Sorted, SourceTreeHash, CountableSnapshot, Lists, Valid, HasReplacement;
    if PlainSnapshot(s) {
      forall t: Snapshot, other: seq<Bytes> |
        CountableSnapshot(t) && Lists(other, t.untracked) && Separates(hash, SeenBy(s, listing), SeenBy(t, other))
        && SourceTreeHash(hash, s, listing) == SourceTreeHash(hash, t, other)
        ensures SameForGit(s, t)
      {
        FingerprintCovers(hash, s, t, listing, other);
        PlainSeenAlike(s, t, listing, other);
      }
    } else {
      var t, other := Lookalike(s, listing);
      FingerprintCovers(hash, s, t, listing, other);
    }
  }

  lemma Lookalike(s: Snapshot, listing: seq<Bytes>) returns (t: Snapshot, other: seq<Bytes>)
    requires CountableSnapshot(s) && Lists(listing, s.untracked) && !PlainSnapshot(s)
    ensures CountableSnapshot(t) && Lists(other, t.untracked)
    ensures SeenBy(s, listing) == SeenBy(t, other) && !SameForGit(s, t)
  {
    hide Lossy, Sorted, Lists, Valid, HasReplacement, Countable, Ascending;
    other := listing;
    if !Plain(s.identity) {
      var answer := AnswerRespelled(s.identity);
      t := s.(identity := answer);
      SameFiles(s, t, listing);
    } else if !Plain(s.head) {
      var answer := AnswerRespelled(s.head);
      t := s.(head := answer);
      SameFiles(s, t, listing);
    } else if !Plain(s.trackedDiff) {
      var answer := AnswerRespelled(s.trackedDiff);
      t := s.(trackedDiff := answer);
      SameFiles(s, t, listing);
    } else if !Readable(s) {
      var p :| p in s.untracked && !Valid(p);
      t := Rewritten(s, p);
      RewrittenSeen(s, listing, p);
    } else {
      var p :| p in s.untracked && !Plain(p);
      var q := OtherSpelling(p);
      t := Respelled(s, p, q);
      other := RespelledSeen(s, listing, p, q);
      FixedExactly(p);
      assert p in s.untracked && p !in t.untracked;
    }
  }

  lemma SameFiles(s: Snapshot, t: Snapshot, listing: seq<Bytes>)
    requires s.untracked == t.untracked && s.others == t.others
    ensures Entries(s, Sorted(DecodeAll(listing))) == Entries(t, Sorted(DecodeAll(listing)))
  {
    hide Sorted, DecodeAll;
  }

  /** `café.txt` as Latin-1 spells it. */
  const LATIN_NAME: Bytes := [0x63, 0x61, 0x66, 0xE9, 0x2E, 0x74, 0x78, 0x74]

  function WithLatinFile(content: Bytes): Snapshot { Snapshot([], [], [], map[LATIN_NAME := Some(content)], map[], []) }

  /** Two trees that differ only in that file's contents have the same fingerprint. */
  lemma LatinNameHidesContents(hash: Bytes -> Bytes, a: Bytes, b: Bytes)
    ensures Lists([LATIN_NAME], WithLatinFile(a).untracked) && Lists([LATIN_NAME], WithLatinFile(b).untracked)
    ensures SourceTreeHash(hash, WithLatinFile(a), [LATIN_NAME]) == SourceTreeHash(hash, WithLatinFile(b), [LATIN_NAME])
    ensures a != b ==> !SameForGit(WithLatinFile(a), WithLatinFile(b))
  {
    hide Lossy, Sorted, Ascending, Encode, Fields;
    var s, t := WithLatinFile(a), WithLatinFile(b);
    assert s.untracked.Keys == {LATIN_NAME} && t.untracked.Keys == {LATIN_NAME};
    assert multiset([LATIN_NAME]) == multiset({LATIN_NAME});
    LatinNameIsInvalid();
    var paths := Sorted(DecodeAll([LATIN_NAME]));
    forall k | 0 <= k < |paths| ensures Lookup(s, paths[k]) == Lookup(t, paths[k]) {
      SortedDecoded(s, [LATIN_NAME], k);
      LossyIsValid(LATIN_NAME);
      assert paths[k] != LATIN_NAME;
    }
    assert Entries(s, paths) == Entries(t, paths);
    assert a != b ==> s.untracked[LATIN_NAME] != t.untracked[LATIN_NAME];
  }

  lemma LatinNameIsInvalid()
    ensures !Valid(LATIN_NAME)
  {
    assert !Valid(LATIN_NAME[3..]);
    assert LATIN_NAME[2..][1..] == LATIN_NAME[3..];
    assert !Valid(LATIN_NAME[2..]);
    assert LATIN_NAME[1..][1..] == LATIN_NAME[2..];
    assert !Valid(LATIN_NAME[1..]);
  }

  // ---------------------------------------------------------------- git's own listing

  /** `git ls-files -z`: each path, then a NUL. */
  function Printed(listing: seq<Bytes>): Bytes {
    if listing == [] then [] else listing[0] + [0] + Printed(listing[1..])
  }

  function FindNul(b: Bytes): (i: nat)
    ensures i <= |b| && 0 !in b[..i] && (i < |b| ==> b[i] == 0)
  {
    if b == [] || b[0] == 0 then 0
    else
      var i := 1 + FindNul(b[1..]);
      assert b[..i] == [b[0]] + b[1..][..i - 1];
      i
  }

  /** Split at NULs, empty pieces dropped. */
  function Pieces(b: Bytes): seq<Bytes>
    decreases |b|
  {
    var i := FindNul(b);
    var first := if i == 0 then [] else [b[..i]];
    if i == |b| then first else first + Pieces(b[i + 1..])
  }

  lemma {:induction false} NulFound(a: Bytes, rest: Bytes)
    requires 0 !in a
    ensures FindNul(a + [0] + rest) == |a|
  {
    var b := a + [0] + rest;
    if a == [] {
      assert b[0] == 0;
    } else {
      assert b[1..] == a[1..] + [0] + rest;
      assert b[0] == a[0] && a[0] in a;
      NulFound(a[1..], rest);
    }
  }

  lemma FirstPiece(a: Bytes, rest: Bytes)
    requires 0 !in a && a != []
    ensures Pieces(a + [0] + rest) == [a] + Pieces(rest)
  {
    hide FindNul;
    NulFound(a, rest);
    var b := a + [0] + rest;
    assert b[..|a|] == a && b[|a| + 1..] == rest;
  }

  /** Splitting the decoded listing gives each path decoded: decoding does not disturb the NULs. */
  lemma {:induction false} ListingDecodes(listing: seq<Bytes>)
    requires forall p :: p in listing ==> p != [] && 0 !in p
    ensures Pieces(Lossy(Printed(listing))) == DecodeAll(listing)
  {
    hide Lossy, Pieces;
    if listing == [] {
      NothingListed();
    } else {
      assert forall p :: p in listing[1..] ==> p in listing;
      ListingDecodes(listing[1..]);
      LossyAcrossNul(listing[0], Printed(listing[1..]));
      NoNulAppears(listing[0]);
      FirstPiece(Lossy(listing[0]), Lossy(Printed(listing[1..])));
      assert DecodeAll(listing) == [Lossy(listing[0])] + DecodeAll(listing[1..]);
    }
  }

  lemma NothingListed()
    ensures Pieces(Lossy([])) == []
  {
    assert FindNul([]) == 0;
  }

  // ---------------------------------------------------------------- building the digest

  lemma {:induction false} EncodeAppends(a: seq<Field>, b: seq<Field>)
    ensures Encode(a + b) == Encode(a) + Encode(b)
  {
    if a == [] {
      assert a + b == b;
    } else {
      assert (a + b)[1..] == a[1..] + b;
      EncodeAppends(a[1..], b);
    }
  }

  lemma {:induction false} UntrackedFieldsSnoc(hash: Bytes -> Bytes, entries: seq<Entry>)
    requires entries != []
    ensures UntrackedFields(hash, entries) ==
      UntrackedFields(hash, entries[..|entries| - 1]) + EntryFields(hash, entries[|entries| - 1])
  {
    if |entries| > 1 {
      UntrackedFieldsSnoc(hash, entries[1..]);
      assert entries[..|entries| - 1][1..] == entries[1..][..|entries| - 2];
    }
  }

  lemma {:induction false} LockfileFieldsSnoc(lockfiles: seq<Lockfile>)
    requires lockfiles != []
    ensures var last := lockfiles[|lockfiles| - 1];
      LockfileFields(lockfiles) == LockfileFields(lockfiles[..|lockfiles| - 1])
        + [Field(LOCKFILE_NAME, last.name), Field(LOCKFILE_CONTENT, last.content)]
  {
    if |lockfiles| > 1 {
      LockfileFieldsSnoc(lockfiles[1..]);
      assert lockfiles[..|lockfiles| - 1][1..] == lockfiles[1..][..|lockfiles| - 2];
    }
  }

  lemma EncodeOne(name: Bytes, value: Bytes)
    ensures Encode([Field(name, value)]) == Prefixed(name) + Prefixed(value)
  {
    hide BigEndian;
    assert [Field(name, value)][1..] == [];
    assert Encode([]) == [];
  }

  /** The bytes fed to a digest so far. */
  class Digest {
    var stream: Bytes

    constructor ()
      ensures stream == []
    {
      stream := [];
    }

    /** `append_field`. */
    method AppendField(ghost fields: seq<Field>, name: Bytes, value: Bytes)
      requires stream == Encode(fields)
      modifies this
      ensures stream == Encode(fields + [Field(name, value)])
    {
      hide Encode, BigEndian;
      EncodeAppends(fields, [Field(name, value)]);
      EncodeOne(name, value);
      stream := stream + BigEndian(|name|, LENGTH_BYTES);
      stream := stream + name;
      stream := stream + BigEndian(|value|, LENGTH_BYTES);
      stream := stream + value;
    }

    /** The untracked files: each path, and its content's hash where there is a file. */
    method AppendUntracked(ghost fields: seq<Field>, hash: Bytes -> Bytes, s: Snapshot, paths: seq<Bytes>)
      requires stream == Encode(fields)
      modifies this
      ensures stream == Encode(fields + UntrackedFields(hash, Entries(s, paths)))
    {
      hide Encode, UntrackedFields, Lookup;
      NoFields(hash);
      ghost var all := fields;
      ghost var entries := Entries(s, paths);
      for i := 0 to |paths|
        invariant all == fields + UntrackedFields(hash, entries[..i]) && stream == Encode(all)
      {
        assert entries[..i + 1][..i] == entries[..i];
        UntrackedFieldsSnoc(hash, entries[..i + 1]);
        AppendField(all, UNTRACKED_PATH, paths[i]);
        all := all + [Field(UNTRACKED_PATH, paths[i])];
        var content := Lookup(s, paths[i]);
        if content.Some? {
          AppendField(all, UNTRACKED_SHA256, hash(content.value));
          all := all + [Field(UNTRACKED_SHA256, hash(content.value))];
        }
      }
      assert entries[..|paths|] == entries;
    }

    method AppendLockfiles(ghost fields: seq<Field>, lockfiles: seq<Lockfile>)
      requires stream == Encode(fields)
      modifies this
      ensures stream == Encode(fields + LockfileFields(lockfiles))
    {
      hide Encode, LockfileFields;
      NoLockfiles();
      ghost var all := fields;
      for i := 0 to |lockfiles|
        invariant all == fields + LockfileFields(lockfiles[..i]) && stream == Encode(all)
      {
        assert lockfiles[..i + 1][..i] == lockfiles[..i];
        LockfileFieldsSnoc(lockfiles[..i + 1]);
        AppendField(all, LOCKFILE_NAME, lockfiles[i].name);
        all := all + [Field(LOCKFILE_NAME, lockfiles[i].name)];
        AppendField(all, LOCKFILE_CONTENT, lockfiles[i].content);
        all := all + [Field(LOCKFILE_CONTENT, lockfiles[i].content)];
      }
      assert lockfiles[..|lockfiles|] == lockfiles;
    }
  }

  /** `source_tree_hash`, from git's own output. */
  method Fingerprint(hash: Bytes -> Bytes, s: Snapshot, listing: seq<Bytes>) returns (fingerprint: Bytes)
    requires Lists(listing, s.untracked) && forall p :: p in listing ==> p != [] && 0 !in p
    ensures fingerprint == SourceTreeHash(hash, s, listing)
  {
    hide Encode, UntrackedFields, LockfileFields, Lossy, Pieces, Sorted, DecodeAll, Entries, Lists;
    var stdout := Lossy(Printed(listing));
    ListingDecodes(listing);
    var paths := Sorted(Pieces(stdout));
    var digest := new Digest();
    NoFields(hash);
    ghost var fields := [];
    digest.AppendField(fields, REPOSITORY, Lossy(s.identity));
    fields := fields + [Field(REPOSITORY, Lossy(s.identity))];
    digest.AppendField(fields, HEAD, Lossy(s.head));
    fields := fields + [Field(HEAD, Lossy(s.head))];
    digest.AppendField(fields, TRACKED_DIFF, Lossy(s.trackedDiff));
    fields := fields + [Field(TRACKED_DIFF, Lossy(s.trackedDiff))];
    digest.AppendUntracked(fields, hash, s, paths);
    fields := fields + UntrackedFields(hash, Entries(s, paths));
    digest.AppendLockfiles(fields, s.lockfiles);
    assert fields + LockfileFields(s.lockfiles) == Fields(hash, SeenBy(s, listing));
    fingerprint := hash(digest.stream);
  }

  lemma NoLockfiles()
    ensures LockfileFields([]) == []
  {
  }

  lemma NoFields(hash: Bytes -> Bytes)
    ensures UntrackedFields(hash, []) == [] && Encode([]) == []
  {
  }
}
