/**
 The bounded audit bundle: logs trimmed in the middle, required entries always kept, optional entries dropped from
 the end only as far as the size limit asks for, and every omission accounted for in the manifest.
 */
module AuditBundle {
  type Byte = b: int | 0 <= b < 0x100

  const MAX_BYTES: nat := 0x400_0000
  const CORE_MAX_BYTES: nat := 0x200_0000
  const LOG_MAX_BYTES: nat := 0x20_0000
  const MANIFEST := "manifest.json"

  datatype Source = Source(path: string, payload: seq<Byte>, required: bool, isLog: bool)

  datatype OmissionKind = MiddleOmitted | EntryOmitted

  datatype Omission = Omission(kind: OmissionKind, start: nat, end: nat)

  datatype Record = Record(path: string, required: bool, originalSize: nat, retainedSize: nat, omissions: seq<Omission>)

  datatype Entry = Entry(path: string, data: seq<Byte>)

  /** The canonical text of a manifest. */
  type Encoder = seq<Record> -> seq<Byte>

  datatype Bundle = Bundle(entries: seq<Entry>, records: seq<Record>)

  datatype Outcome = Built(bundle: Bundle) | PathsRepeat | CoreTooLarge | TooLarge

  // ----- trimming -----

  function Retained(s: Source): seq<Byte> {
    if !s.isLog || |s.payload| <= LOG_MAX_BYTES then s.payload
    else s.payload[..LOG_MAX_BYTES / 2] + s.payload[|s.payload| - LOG_MAX_BYTES / 2..]
  }

  function TrimmedRanges(s: Source): seq<Omission> {
    if !s.isLog || |s.payload| <= LOG_MAX_BYTES then []
    else [Omission(MiddleOmitted, LOG_MAX_BYTES / 2, |s.payload| - LOG_MAX_BYTES / 2)]
  }

  function OmittedBytes(omissions: seq<Omission>): int {
    if omissions == [] then 0 else omissions[0].end - omissions[0].start + OmittedBytes(omissions[1..])
  }

  function RecordOf(s: Source, dropped: bool): Record {
    if dropped then Record(s.path, s.required, |s.payload|, 0, [Omission(EntryOmitted, 0, |s.payload|)])
    else Record(s.path, s.required, |s.payload|, |Retained(s)|, TrimmedRanges(s))
  }

  /** Nothing goes missing silently: what is retained and what is listed as omitted add up, and a trimmed log is
      the original without exactly the listed range. Only logs over 2 MiB are trimmed, to their first and last MiB. */
  lemma RecordAddsUp(s: Source, dropped: bool)
    ensures var r := RecordOf(s, dropped); r.retainedSize + OmittedBytes(r.omissions) == r.originalSize == |s.payload|
    ensures |Retained(s)| <= |s.payload| && (s.isLog ==> |Retained(s)| <= LOG_MAX_BYTES)
    ensures TrimmedRanges(s) != [] ==>
      Retained(s) == s.payload[..TrimmedRanges(s)[0].start] + s.payload[TrimmedRanges(s)[0].end..]
    ensures TrimmedRanges(s) == [] ==> Retained(s) == s.payload
    ensures TrimmedRanges(s) == [] <==> !s.isLog || |s.payload| <= 0x20_0000
    ensures TrimmedRanges(s) != [] ==>
      && |Retained(s)| == 0x20_0000 && Retained(s)[..0x10_0000] == s.payload[..0x10_0000]
      && Retained(s)[0x10_0000..] == s.payload[|s.payload| - 0x10_0000..]
  {
    var r := RecordOf(s, dropped);
    assert r.omissions != [] ==> r.omissions[1..] == [];
  }

  // ----- which entries are kept -----

  /** Optional sources from position `i` on are dropped. */
  predicate Dropped(sources: seq<Source>, i: nat, j: nat)
    requires j < |sources|
  {
    !sources[j].required && j >= i
  }

  function EntriesOf(sources: seq<Source>, i: nat, n: nat): seq<Entry>
    requires n <= |sources|
  {
    if n == 0 then []
    else
      EntriesOf(sources, i, n - 1)
      + (if Dropped(sources, i, n - 1) then [] else [Entry(sources[n - 1].path, Retained(sources[n - 1]))])
  }

  function RecordsOf(sources: seq<Source>, i: nat): (r: seq<Record>)
    ensures |r| == |sources| && forall j :: 0 <= j < |sources| ==> r[j] == RecordOf(sources[j], Dropped(sources, i, j))
  {
    seq(|sources|, j requires 0 <= j < |sources| => RecordOf(sources[j], Dropped(sources, i, j)))
  }

  /** A stored ZIP: a local and a central header for every entry, and the end record. */
  function ZipSize(entries: seq<Entry>): nat {
    if entries == [] then 22
    else ZipSize(entries[..|entries| - 1]) + 76 + 2 * |entries[|entries| - 1].path| + |entries[|entries| - 1].data|
  }

  function SizeOf(entries: seq<Entry>, records: seq<Record>, encode: Encoder): nat {
    ZipSize(entries + [Entry(MANIFEST, encode(records))])
  }

  function SizeAt(sources: seq<Source>, i: nat, encode: Encoder): nat {
    SizeOf(EntriesOf(sources, i, |sources|), RecordsOf(sources, i), encode)
  }

  function CoreBytes(sources: seq<Source>, n: nat): nat
    requires n <= |sources|
  {
    if n == 0 then 0
    else CoreBytes(sources, n - 1) + (if sources[n - 1].required then |Retained(sources[n - 1])| else 0)
  }

  /** The required sources, in order. */
  function RequiredOnes(sources: seq<Source>): (r: seq<Source>)
    ensures forall s :: s in r <==> s in sources && s.required
  {
    if sources == [] then []
    else
      var n := |sources| - 1;
      assert sources == sources[..n] + [sources[n]];
      RequiredOnes(sources[..n]) + (if sources[n].required then [sources[n]] else [])
  }

  function RetainedBytes(sources: seq<Source>): nat {
    if sources == [] then 0 else |Retained(sources[0])| + RetainedBytes(sources[1..])
  }

  lemma {:induction false} RetainedLast(sources: seq<Source>, s: Source)
    ensures RetainedBytes(sources + [s]) == RetainedBytes(sources) + |Retained(s)|
  {
    hide Retained;
    if sources != [] {
      RetainedLast(sources[1..], s);
      assert (sources + [s])[1..] == sources[1..] + [s];
    }
  }

  /** The limit of the core counts what is retained of the required sources and of no other. */
  lemma {:induction false} CoreIsRequired(sources: seq<Source>, n: nat)
    requires n <= |sources|
    ensures CoreBytes(sources, n) == RetainedBytes(RequiredOnes(sources[..n]))
  {
    hide Retained;
    if n > 0 {
      CoreIsRequired(sources, n - 1);
      RequiredStep(sources, n);
      hide RequiredOnes, RetainedBytes;
      RetainedLast(RequiredOnes(sources[..n - 1]), sources[n - 1]);
    }
  }

  lemma {:induction false} RequiredStep(sources: seq<Source>, n: nat)
    requires 0 < n <= |sources|
    ensures var before := RequiredOnes(sources[..n - 1]);
            RequiredOnes(sources[..n]) == if sources[n - 1].required then before + [sources[n - 1]] else before
  {
    assert sources[..n][..n - 1] == sources[..n - 1];
    var before := RequiredOnes(sources[..n - 1]);
    assert before + [] == before;
  }

  lemma {:induction false} CoreGrows(sources: seq<Source>, m: nat, n: nat)
    requires m <= n <= |sources|
    ensures CoreBytes(sources, m) <= CoreBytes(sources, n)
  {
    if m < n { CoreGrows(sources, m, n - 1); }
  }

  predicate PathsOk(sources: seq<Source>) {
    && (forall i, j :: 0 <= i < j < |sources| ==> sources[i].path != sources[j].path)
    && (forall i :: 0 <= i < |sources| ==> sources[i].path != MANIFEST)
  }

  // ----- deleting one entry -----

  function Delete(entries: seq<Entry>, path: string): seq<Entry> {
    if entries == [] then []
    else
      var n := |entries| - 1;
      Delete(entries[..n], path) + (if entries[n].path == path then [] else [entries[n]])
  }

  /** Dropping one more optional source deletes exactly its entry. */
  lemma {:induction false} DeleteEntry(sources: seq<Source>, i: nat, n: nat)
    requires PathsOk(sources) && i < |sources| && !sources[i].required && n <= |sources|
    ensures Delete(EntriesOf(sources, i + 1, n), sources[i].path) == EntriesOf(sources, i, n)
  {
    hide Retained, Delete;
    DeleteNothing(sources[i].path);
    if n > 0 {
      DeleteEntry(sources, i, n - 1);
      DeleteLast(EntriesOf(sources, i + 1, n - 1), Entry(sources[n - 1].path, Retained(sources[n - 1])),
                 sources[i].path);
      if Dropped(sources, i + 1, n - 1) { assert EntriesOf(sources, i + 1, n) == EntriesOf(sources, i + 1, n - 1); }
    }
  }

  lemma {:induction false} DeleteNothing(path: string)
    ensures Delete([], path) == []
  {}

  lemma {:induction false} DeleteLast(entries: seq<Entry>, e: Entry, path: string)
    ensures Delete(entries + [e], path) == Delete(entries, path) + (if e.path == path then [] else [e])
  {
    assert (entries + [e])[..|entries|] == entries;
  }

  lemma {:induction false} SameEntries(sources: seq<Source>, i: nat, n: nat)
    requires i < |sources| && sources[i].required && n <= |sources|
    ensures EntriesOf(sources, i, n) == EntriesOf(sources, i + 1, n)
  {
    if n > 0 { SameEntries(sources, i, n - 1); }
  }

  lemma SameAt(sources: seq<Source>, i: nat, encode: Encoder)
    requires i < |sources| && sources[i].required
    ensures EntriesOf(sources, i, |sources|) == EntriesOf(sources, i + 1, |sources|)
    ensures RecordsOf(sources, i) == RecordsOf(sources, i + 1)
            && SizeAt(sources, i, encode) == SizeAt(sources, i + 1, encode)
  {
    SameEntries(sources, i, |sources|);
  }

  lemma DropRecord(sources: seq<Source>, i: nat)
    requires i < |sources| && !sources[i].required
    ensures RecordsOf(sources, i + 1)[i := RecordOf(sources[i], true)] == RecordsOf(sources, i)
  {}

  function RecordIndex(records: seq<Record>, path: string): (k: nat)
    ensures k <= |records| && (k < |records| ==> records[k].path == path)
    ensures forall j :: 0 <= j < k ==> records[j].path != path
  {
    if records == [] || records[0].path == path then 0 else 1 + RecordIndex(records[1..], path)
  }

  lemma FoundAt(sources: seq<Source>, i: nat)
    requires PathsOk(sources) && i < |sources|
    ensures RecordIndex(RecordsOf(sources, i + 1), sources[i].path) == i
  {
    var records := RecordsOf(sources, i + 1);
    assert records[i].path == sources[i].path;
    forall j | 0 <= j < i ensures records[j].path != sources[i].path { assert records[j].path == sources[j].path; }
  }

  // ----- the builder -----

  /** The bundle after dropping the optional sources from `i` on. */
  function BundleAt(sources: seq<Source>, i: nat): Bundle {
    Bundle(EntriesOf(sources, i, |sources|), RecordsOf(sources, i))
  }

  /** `i` is as late as it can be: keeping any more optional sources would be too large. */
  ghost predicate Shortest(sources: seq<Source>, i: nat, encode: Encoder) {
    i <= |sources| && SizeAt(sources, i, encode) <= MAX_BYTES
    && forall j :: i < j <= |sources| ==> SizeAt(sources, j, encode) > MAX_BYTES
  }

  method Collect(sources: seq<Source>) returns (bundle: Bundle, ok: bool)
    ensures ok <==> CoreBytes(sources, |sources|) <= CORE_MAX_BYTES
    ensures ok ==> bundle == BundleAt(sources, |sources|)
  {
    hide Retained, TrimmedRanges;
    var entries: seq<Entry>, records: seq<Record>, core := [], [], 0;
    var n := 0;
    while n < |sources|
      invariant n <= |sources| && core == CoreBytes(sources, n) <= CORE_MAX_BYTES
      invariant entries == EntriesOf(sources, |sources|, n)
      invariant records == RecordsOf(sources, |sources|)[..n]
    {
      var s := sources[n];
      if s.required {
        core := core + |Retained(s)|;
        if core > CORE_MAX_BYTES {
          CoreGrows(sources, n + 1, |sources|);
          return Bundle([], []), false;
        }
      }
      entries := entries + [Entry(s.path, Retained(s))];
      records := records + [RecordOf(s, false)];
      n := n + 1;
    }
    return Bundle(entries, records), true;
  }

  method BuildAuditBundle(sources: seq<Source>, encode: Encoder) returns (r: Outcome)
    ensures r.PathsRepeat? <==> !PathsOk(sources)
    ensures r.CoreTooLarge? <==> PathsOk(sources) && RetainedBytes(RequiredOnes(sources)) > CORE_MAX_BYTES
    ensures r.Built? ==> exists i :: Shortest(sources, i, encode) && r.bundle == BundleAt(sources, i)
    ensures r.TooLarge? ==> forall i :: 0 <= i <= |sources| ==> SizeAt(sources, i, encode) > MAX_BYTES
  {
    CoreIsRequired(sources, |sources|);
    assert sources[..|sources|] == sources;
    hide SizeAt, BundleAt, CoreBytes, PathsOk, RequiredOnes, RetainedBytes;
    if !PathsOk(sources) { return PathsRepeat; }
    var bundle, ok := Collect(sources);
    if !ok { return CoreTooLarge; }
    var i, fitting, fits := Shrink(sources, bundle, encode);
    return if fits then Built(fitting) else TooLarge;
  }

  /** Drops optional sources from the end until the bundle fits. */
  method Shrink(sources: seq<Source>, whole: Bundle, encode: Encoder) returns (i: nat, bundle: Bundle, fits: bool)
    requires PathsOk(sources) && whole == BundleAt(sources, |sources|)
    ensures fits ==> Shortest(sources, i, encode) && bundle == BundleAt(sources, i)
    ensures !fits ==> forall j :: 0 <= j <= |sources| ==> SizeAt(sources, j, encode) > MAX_BYTES
  {
    hide PathsOk, EntriesOf, RecordsOf, SizeOf;
    bundle := whole;
    var size := SizeOf(bundle.entries, bundle.records, encode);
    i := |sources|;
    while i > 0 && size > MAX_BYTES
      invariant i <= |sources| && bundle == BundleAt(sources, i) && size == SizeAt(sources, i, encode)
      invariant forall j :: i < j <= |sources| ==> SizeAt(sources, j, encode) > MAX_BYTES
    {
      i := i - 1;
      if sources[i].required {
        SameAt(sources, i, encode);
      } else {
        bundle := DropSource(sources, i, bundle);
        size := SizeOf(bundle.entries, bundle.records, encode);
      }
    }
    fits := size <= MAX_BYTES;
  }

  method DropSource(sources: seq<Source>, i: nat, bundle: Bundle) returns (r: Bundle)
    requires PathsOk(sources) && i < |sources| && !sources[i].required && bundle == BundleAt(sources, i + 1)
    ensures r == BundleAt(sources, i)
  {
    DeleteEntry(sources, i, |sources|);
    DropRecord(sources, i);
    FoundAt(sources, i);
    hide EntriesOf, RecordsOf, PathsOk;
    var k := RecordIndex(bundle.records, sources[i].path);
    r := Bundle(Delete(bundle.entries, sources[i].path), bundle.records[k := RecordOf(sources[i], true)]);
  }

  // ----- what a built bundle holds -----

  lemma {:induction false} EntryIsKept(sources: seq<Source>, i: nat, j: nat, n: nat)
    requires j < n <= |sources| && !Dropped(sources, i, j)
    ensures Entry(sources[j].path, Retained(sources[j])) in EntriesOf(sources, i, n)
  {
    if j < n - 1 { EntryIsKept(sources, i, j, n - 1); }
  }

  lemma {:induction false} EntryComesFrom(sources: seq<Source>, i: nat, n: nat, e: Entry)
    requires n <= |sources| && e in EntriesOf(sources, i, n)
    ensures exists j :: 0 <= j < n && !Dropped(sources, i, j) && e == Entry(sources[j].path, Retained(sources[j]))
  {
    if e in EntriesOf(sources, i, n - 1) { EntryComesFrom(sources, i, n - 1, e); }
    else { assert !Dropped(sources, i, n - 1); }
  }

  /** A built bundle has every required source and every optional one before the cut, each record adds up, and what
      is missing is listed as missing. */
  lemma BundleIsFaithful(sources: seq<Source>, i: nat, j: nat)
    requires j < |sources|
    ensures var b := BundleAt(sources, i); var s := sources[j];
            && (s.required || j < i ==> Entry(s.path, Retained(s)) in b.entries)
            && |b.records| == |sources| && b.records[j].path == s.path
            && b.records[j].retainedSize + OmittedBytes(b.records[j].omissions) == |s.payload|
            && (!s.required && j >= i ==> b.records[j].omissions == [Omission(EntryOmitted, 0, |s.payload|)])
    ensures PathsOk(sources) && Dropped(sources, i, j) ==>
      forall e :: e in BundleAt(sources, i).entries ==> e.path != sources[j].path
  {
    var s := sources[j];
    if !Dropped(sources, i, j) { EntryIsKept(sources, i, j, |sources|); }
    RecordAddsUp(s, Dropped(sources, i, j));
    if PathsOk(sources) && Dropped(sources, i, j) {
      forall e | e in BundleAt(sources, i).entries ensures e.path != s.path {
        EntryComesFrom(sources, i, |sources|, e);
      }
    }
  }
}
