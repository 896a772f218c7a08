/**
 * A distributed vector as one rank sees it: a reference to the parallel
 * manager that describes the partitioning, the rank's interior (its part of
 * the global vector), the vector's name, and the ghost index array the
 * interior registers from the parallel manager.
 */
module GlobalVectors {
  import opened Options
  import opened PartitionNames

  /** Why an operation ended in a fatal error. */
  datatype Fatal = CannotOpen(path: string) | Unsupported

  datatype Status = Ok | Aborted(reason: Fatal)

  /** The two file layouts; they share the header and the naming, and differ in how values are stored. */
  datatype Format = Ascii | Binary

  datatype FileContent = Text(text: string) | Values(format: Format, values: seq<real>)

  /** The files the vector is read from and written to; `readOnly` holds the paths that cannot be opened for writing. */
  datatype FileSystem = FileSystem(files: map<string, FileContent>, readOnly: set<string>)

  datatype ReadResult = Loaded(values: seq<real>) | Failed(reason: Fatal)

  /**
   * The parallel manager, owned by the caller and shared by reference: its
   * rank, the number of ranks, the global and local row and column counts,
   * the number of ghost values received, and the boundary index array whose
   * length is the number of values sent.
   */
  class ParallelManager {
    const rank: nat
    const numProcs: nat
    const globalNrow: nat
    const globalNcol: nat
    const localNrow: nat
    const localNcol: nat
    const numReceivers: nat
    const boundaryIndex: seq<int>

    constructor (rank: nat, numProcs: nat, globalNrow: nat, globalNcol: nat,
                 localNrow: nat, localNcol: nat, numReceivers: nat, boundaryIndex: seq<int>)
      ensures this.rank == rank && this.numProcs == numProcs
      ensures this.globalNrow == globalNrow && this.globalNcol == globalNcol
      ensures this.localNrow == localNrow && this.localNcol == localNcol
      ensures this.numReceivers == numReceivers && this.boundaryIndex == boundaryIndex
    {
      this.rank, this.numProcs := rank, numProcs;
      this.globalNrow, this.globalNcol := globalNrow, globalNcol;
      this.localNrow, this.localNcol := localNrow, localNcol;
      this.numReceivers, this.boundaryIndex := numReceivers, boundaryIndex;
    }
  }

  /** A freshly allocated interior (the local allocator zero-fills). */
  function Zeros(n: nat): (z: seq<real>) {
    seq(n, _ => 0.0)
  }

  /**
   * The local length a vector of global length `size` gets: the local column
   * count when `size` is the global column count (which wins when both
   * counts match), otherwise the local row count.
   */
  function LocalSizeFor(pm: ParallelManager, size: nat): nat
    requires size == pm.globalNrow || size == pm.globalNcol
  {
    if size == pm.globalNcol then pm.localNcol else pm.localNrow
  }

  /** The global length `GetSize` reports for a local length (0 when it matches neither count). */
  function GlobalSizeFor(pm: ParallelManager, localSize: nat): nat {
    if localSize == pm.localNrow then pm.globalNrow
    else if localSize == pm.localNcol then pm.globalNcol
    else 0
  }

  /**
   * `GetSize` after `Allocate(size)` reports `size` back, except when `size`
   * is the global column count, the local row and column counts coincide
   * and the global counts do not: then it reports the global row count.
   */
  lemma GetSizeAfterAllocate(pm: ParallelManager, size: nat)
    requires size == pm.globalNrow || size == pm.globalNcol
    ensures GlobalSizeFor(pm, LocalSizeFor(pm, size)) == size
        <==> !(size == pm.globalNcol && pm.localNcol == pm.localNrow && pm.globalNrow != pm.globalNcol)
  {
  }

  /** The header `WriteFile` leaves on rank 0: one line per rank, the whole partition file name. */
  function WrittenHeader(filename: string, numProcs: nat): string {
    Lines(HeaderLines(filename, numProcs))
  }

  /**
   * The header as evidently intended: one line per rank, the partition's
   * name relative to the header's directory (see the Findings of this model).
   */
  function CorrectedHeader(filename: string, numProcs: nat): string {
    Lines(CorrectedHeaderLines(filename, numProcs))
  }

  /**
   * The status and files after rank `rank` writes its interior under
   * `filename`, rank 0 writing `header` as the header file.
   */
  function WriteOutcomeWith(header: string, filename: string, rank: nat, interior: seq<real>,
                            fs: FileSystem, format: Format): (Status, FileSystem)
  {
    if rank == 0 && filename in fs.readOnly then (Aborted(CannotOpen(filename)), fs)
    else
      var withHeader :=
        if rank == 0 then fs.(files := fs.files[filename := Text(header)]) else fs;
      var part := PartitionName(filename, rank);
      if part in fs.readOnly then (Aborted(CannotOpen(part)), withHeader)
      else (Ok, withHeader.(files := withHeader.files[part := Values(format, interior)]))
  }

  /** What `WriteFile` does: the header as the program writes it. */
  function WriteOutcome(filename: string, rank: nat, numProcs: nat, interior: seq<real>,
                        fs: FileSystem, format: Format): (Status, FileSystem)
  {
    WriteOutcomeWith(WrittenHeader(filename, numProcs), filename, rank, interior, fs, format)
  }

  /** What `CorrectedWriteFile` does: the corrected header. */
  function CorrectedWriteOutcome(filename: string, rank: nat, numProcs: nat, interior: seq<real>,
                                 fs: FileSystem, format: Format): (Status, FileSystem)
  {
    WriteOutcomeWith(CorrectedHeader(filename, numProcs), filename, rank, interior, fs, format)
  }

  /** What rank `rank` loads when it reads the vector saved under `filename`. */
  function ReadOutcome(fs: FileSystem, filename: string, rank: nat, format: Format): ReadResult {
    if filename !in fs.files || !fs.files[filename].Text? then Failed(CannotOpen(filename))
    else
      var path := ReadPath(filename, fs.files[filename].text, rank);
      if path in fs.files && fs.files[path].Values? && fs.files[path].format == format
      then Loaded(fs.files[path].values)
      else Failed(CannotOpen(path))
  }

  /** On rank 0 the header has exactly `numProcs` lines, and line `i` is the partition file name of rank `i`. */
  lemma WrittenHeaderHasOneLinePerRank(filename: string, numProcs: nat, i: nat)
    requires NoNewline(filename)
    ensures GetLine(SkipLines(WrittenHeader(filename, numProcs), i))
         == if i < numProcs then PartitionName(filename, i) else ""
    ensures SkipLines(WrittenHeader(filename, numProcs), numProcs) == ""
  {
    var lines := HeaderLines(filename, numProcs);
    HeaderLinesHaveNoNewline(filename, numProcs);
    HeaderLineAt(lines, i);
    SkipLinesOfLines(lines, numProcs);
    assert lines[numProcs..] == [];
  }

  /**
   * The corrected header has exactly `numProcs` lines, and line `i`, put
   * after the header's directory, is the partition file of rank `i`.
   */
  lemma CorrectedHeaderHasOneLinePerRank(filename: string, numProcs: nat, i: nat)
    requires NoNewline(filename)
    ensures var line := GetLine(SkipLines(CorrectedHeader(filename, numProcs), i));
      (i < numProcs ==> Directory(filename) + line == PartitionName(filename, i))
      && (numProcs <= i ==> line == "")
    ensures SkipLines(CorrectedHeader(filename, numProcs), numProcs) == ""
  {
    var lines := CorrectedHeaderLines(filename, numProcs);
    forall j | 0 <= j < numProcs
      ensures NoNewline(lines[j])
    {
      CorrectedHeaderLineParts(filename, j);
    }
    HeaderLineAt(lines, i);
    if i < numProcs {
      CorrectedHeaderLineParts(filename, i);
    }
    SkipLinesOfLines(lines, numProcs);
    assert lines[numProcs..] == [];
  }

  /**
   * Every rank writes its interior to its own partition file, and rank 0
   * also writes the header; no other file changes. A file that cannot be
   * opened ends the write with a fatal error naming it.
   */
  lemma WriteOutcomeFiles(header: string, filename: string, rank: nat, interior: seq<real>,
                          fs: FileSystem, format: Format)
    ensures var (st, fs') := WriteOutcomeWith(header, filename, rank, interior, fs, format);
      && fs'.readOnly == fs.readOnly
      && (st == Ok <==> (rank == 0 ==> filename !in fs.readOnly) && PartitionName(filename, rank) !in fs.readOnly)
      && (st == Aborted(CannotOpen(filename)) <==> rank == 0 && filename in fs.readOnly)
      && (st == Ok ==> fs'.files[PartitionName(filename, rank)] == Values(format, interior))
      && (st == Ok && rank == 0 ==> fs'.files[filename] == Text(header))
      && (st != Ok && !(rank == 0 && filename in fs.readOnly) ==> st == Aborted(CannotOpen(PartitionName(filename, rank))))
      && (rank == 0 && filename in fs.readOnly ==> fs' == fs)
      && fs'.files.Keys <= fs.files.Keys + {PartitionName(filename, rank)} + (if rank == 0 then {filename} else {})
      && (forall p :: p in fs.files && p != PartitionName(filename, rank) && (rank == 0 ==> p != filename)
                      ==> p in fs'.files && fs'.files[p] == fs.files[p])
  {
  }

  /**
   * Rank 0 and then rank `r` write with header `header`; when the header
   * leads rank `r` back to its partition, rank `r` reads back what it wrote.
   */
  lemma RoundTripWith(header: string, filename: string, r: nat, fs: FileSystem, format: Format,
                      first: seq<real>, mine: seq<real>)
    requires ReadPath(filename, header, r) == PartitionName(filename, r)
    requires filename !in fs.readOnly && PartitionName(filename, 0) !in fs.readOnly
    requires PartitionName(filename, r) !in fs.readOnly
    ensures var (st0, fs0) := WriteOutcomeWith(header, filename, 0, first, fs, format);
      var (st1, fs1) := if r == 0 then (st0, fs0) else WriteOutcomeWith(header, filename, r, mine, fs0, format);
      st0 == Ok && st1 == Ok && ReadOutcome(fs1, filename, r, format) == Loaded(if r == 0 then first else mine)
  {
    WriteOutcomeFiles(header, filename, 0, first, fs, format);
    var (st0, fs0) := WriteOutcomeWith(header, filename, 0, first, fs, format);
    var part := PartitionName(filename, r);
    assert |part| > |filename|;
    var fs1 := fs0;
    if r != 0 {
      WriteOutcomeFiles(header, filename, r, mine, fs0, format);
      fs1 := WriteOutcomeWith(header, filename, r, mine, fs0, format).1;
    }
    assert fs1.files[filename] == Text(header);
  }

  /**
   * Every rank of a world of `k` ranks writes with header `header`, rank 0
   * first; the first rank that cannot open a file ends the write.
   */
  function WriteRanks(header: string, filename: string, interiors: seq<seq<real>>, k: nat,
                      fs: FileSystem, format: Format): (Status, FileSystem)
    requires k <= |interiors|
    decreases k
  {
    if k == 0 then (Ok, fs)
    else
      var (st, prev) := WriteRanks(header, filename, interiors, k - 1, fs, format);
      if st != Ok then (st, prev)
      else WriteOutcomeWith(header, filename, k - 1, interiors[k - 1], prev, format)
  }

  /**
   * When the header and every partition of the first `k` ranks can be
   * opened, all `k` writes succeed: each partition holds its rank's interior
   * and the header file holds the header.
   */
  lemma {:induction false} WriteRanksKeeps(header: string, filename: string, interiors: seq<seq<real>>, k: nat,
                                           fs: FileSystem, format: Format)
    requires k <= |interiors|
    requires filename !in fs.readOnly
    requires forall j :: 0 <= j < k ==> PartitionName(filename, j) !in fs.readOnly
    ensures var (st, fs') := WriteRanks(header, filename, interiors, k, fs, format);
      && st == Ok && fs'.readOnly == fs.readOnly
      && (0 < k ==> filename in fs'.files && fs'.files[filename] == Text(header))
      && (forall j :: 0 <= j < k ==>
            PartitionName(filename, j) in fs'.files && fs'.files[PartitionName(filename, j)] == Values(format, interiors[j]))
    decreases k
  {
    if 0 < k {
      WriteRanksKeeps(header, filename, interiors, k - 1, fs, format);
      var prev := WriteRanks(header, filename, interiors, k - 1, fs, format).1;
      WriteOutcomeFiles(header, filename, k - 1, interiors[k - 1], prev, format);
      var fs' := WriteRanks(header, filename, interiors, k, fs, format).1;
      forall j | 0 <= j < k - 1
        ensures PartitionName(filename, j) in fs'.files && fs'.files[PartitionName(filename, j)] == Values(format, interiors[j])
      {
        PartitionNamesDistinct(filename, j, k - 1);
        assert |PartitionName(filename, j)| > |filename|;
      }
    }
  }

  /**
   * After all `numProcs` ranks write, rank `r` reads back its own interior
   * whenever the header leads it to its own partition.
   */
  lemma WorldRoundTripWith(header: string, filename: string, interiors: seq<seq<real>>, r: nat,
                           fs: FileSystem, format: Format)
    requires r < |interiors|
    requires ReadPath(filename, header, r) == PartitionName(filename, r)
    requires filename !in fs.readOnly
    requires forall j :: 0 <= j < |interiors| ==> PartitionName(filename, j) !in fs.readOnly
    ensures var (st, fs') := WriteRanks(header, filename, interiors, |interiors|, fs, format);
      st == Ok && ReadOutcome(fs', filename, r, format) == Loaded(interiors[r])
  {
    WriteRanksKeeps(header, filename, interiors, |interiors|, fs, format);
  }

  /**
   * The program's header: with no directory part and no whitespace in the
   * file name, every rank of the world reads back the interior it wrote.
   */
  lemma WorldRoundTrip(filename: string, interiors: seq<seq<real>>, r: nat, fs: FileSystem, format: Format)
    requires r < |interiors| && NoNewline(filename)
    requires LastSeparator(filename) == -1 && NoSpace(filename)
    requires filename !in fs.readOnly
    requires forall j :: 0 <= j < |interiors| ==> PartitionName(filename, j) !in fs.readOnly
    ensures var (st, fs') := WriteRanks(WrittenHeader(filename, |interiors|), filename, interiors, |interiors|, fs, format);
      st == Ok && ReadOutcome(fs', filename, r, format) == Loaded(interiors[r])
  {
    ReadFindsWrittenPartitionIff(filename, |interiors|, r);
    WorldRoundTripWith(WrittenHeader(filename, |interiors|), filename, interiors, r, fs, format);
  }

  /** The corrected header: every rank reads back its interior wherever the header lives. */
  lemma CorrectedWorldRoundTrip(filename: string, interiors: seq<seq<real>>, r: nat, fs: FileSystem, format: Format)
    requires r < |interiors| && NoNewline(filename)
    requires NoSpace(BaseName(filename))
    requires filename !in fs.readOnly
    requires forall j :: 0 <= j < |interiors| ==> PartitionName(filename, j) !in fs.readOnly
    ensures var (st, fs') := WriteRanks(CorrectedHeader(filename, |interiors|), filename, interiors, |interiors|, fs, format);
      st == Ok && ReadOutcome(fs', filename, r, format) == Loaded(interiors[r])
  {
    CorrectedReadFindsWrittenPartition(filename, |interiors|, r);
    WorldRoundTripWith(CorrectedHeader(filename, |interiors|), filename, interiors, r, fs, format);
  }

  /**
   * Writing and reading back with the program's header: when the file name
   * has no directory part and no whitespace, and rank 0 and rank `r` both
   * write, rank `r` reads back exactly the interior it wrote. (With a
   * directory part it does not: `PartitionNames.ReadFindsWrittenPartitionIff`.)
   */
  lemma WriteThenReadRoundTrip(filename: string, numProcs: nat, r: nat, fs: FileSystem, format: Format,
                               first: seq<real>, mine: seq<real>)
    requires r < numProcs && NoNewline(filename)
    requires LastSeparator(filename) == -1 && NoSpace(filename)
    requires filename !in fs.readOnly && PartitionName(filename, 0) !in fs.readOnly
    requires PartitionName(filename, r) !in fs.readOnly
    ensures var (st0, fs0) := WriteOutcome(filename, 0, numProcs, first, fs, format);
      var (st1, fs1) := if r == 0 then (st0, fs0) else WriteOutcome(filename, r, numProcs, mine, fs0, format);
      st0 == Ok && st1 == Ok && ReadOutcome(fs1, filename, r, format) == Loaded(if r == 0 then first else mine)
  {
    ReadFindsWrittenPartitionIff(filename, numProcs, r);
    RoundTripWith(WrittenHeader(filename, numProcs), filename, r, fs, format, first, mine);
  }

  /**
   * With the corrected header the round trip holds wherever the header
   * lives: only whitespace in the base name, which the reader strips, breaks it.
   */
  lemma CorrectedWriteThenReadRoundTrip(filename: string, numProcs: nat, r: nat, fs: FileSystem, format: Format,
                                        first: seq<real>, mine: seq<real>)
    requires r < numProcs && NoNewline(filename)
    requires NoSpace(BaseName(filename))
    requires filename !in fs.readOnly && PartitionName(filename, 0) !in fs.readOnly
    requires PartitionName(filename, r) !in fs.readOnly
    ensures var (st0, fs0) := CorrectedWriteOutcome(filename, 0, numProcs, first, fs, format);
      var (st1, fs1) := if r == 0 then (st0, fs0) else CorrectedWriteOutcome(filename, r, numProcs, mine, fs0, format);
      st0 == Ok && st1 == Ok && ReadOutcome(fs1, filename, r, format) == Loaded(if r == 0 then first else mine)
  {
    CorrectedReadFindsWrittenPartition(filename, numProcs, r);
    RoundTripWith(CorrectedHeader(filename, numProcs), filename, r, fs, format, first, mine);
  }

  /**
   * The ghost length is a property of the parallel manager alone: two
   * vectors on the same manager report the same ghost length, whatever
   * their interiors, sizes and names.
   */
  lemma GhostSizeDependsOnlyOnManager(v: GlobalVector, w: GlobalVector)
    requires v.pm != null && v.pm == w.pm
    ensures v.GetGhostSize() == w.GetGhostSize() == v.pm.numReceivers
  {
  }

  /** The caller's `ValueType**`: a slot holding a buffer, or NULL. */
  class HostSlot {
    var buffer: Option<seq<real>>

    constructor (buffer: Option<seq<real>>)
      ensures this.buffer == buffer
    {
      this.buffer := buffer;
    }
  }

  class GlobalVector {
    var pm: ParallelManager?
    var objectName: string
    var interior: seq<real>
    var interiorName: string
    var indexArray: seq<int>

    /** The default constructor, with no parallel manager attached. */
    constructor Unattached()
      ensures pm == null && objectName == "" && interior == []
    {
      pm, objectName, interior := null, "", [];
    }

    constructor (pm: ParallelManager)
      ensures this.pm == pm && objectName == "" && interior == []
    {
      this.pm, objectName, interior := pm, "", [];
    }

    method Clear()
      modifies this`interior
      ensures interior == []
    {
      interior := [];
    }

    method SetParallelManager(pm: ParallelManager)
      modifies this`pm
      ensures this.pm == pm
    {
      this.pm := pm;
    }

    /** `GetLocalSize`: the length of this rank's interior. */
    function LocalSize(): nat
      reads this
    {
      |interior|
    }

    /** The global length, recovered from the local length against the parallel manager. */
    function GetSize(): nat
      reads this
      requires pm != null
    {
      GlobalSizeFor(pm, LocalSize())
    }

    /** The ghost length: the number of values the parallel manager receives, whatever the vector holds. */
    function GetGhostSize(): nat
      reads this
      requires pm != null
    {
      pm.numReceivers
    }

    method Allocate(name: string, size: nat)
      requires pm != null
      requires size == pm.globalNrow || size == pm.globalNcol
      modifies this`objectName, this`interior, this`interiorName, this`indexArray
      ensures objectName == name && interiorName == "Interior of " + name
      ensures interior == Zeros(LocalSizeFor(pm, size))
      ensures LocalSize() == LocalSizeFor(pm, size)
      ensures GetSize() == GlobalSizeFor(pm, LocalSizeFor(pm, size))
      ensures indexArray == pm.boundaryIndex
    {
      objectName := name;
      var localSize: int := -1;
      if pm.globalNrow == size {
        localSize := pm.localNrow;
      }
      if pm.globalNcol == size {
        localSize := pm.localNcol;
      }
      assert localSize != -1;
      interior := Zeros(localSize);
      interiorName := "Interior of " + name;
      indexArray := pm.boundaryIndex;
    }

    /** Adopts the caller's buffer as the interior; the caller's slot is left NULL. */
    method SetDataPtr(slot: HostSlot, name: string, size: nat)
      requires slot.buffer.Some?
      requires pm != null
      requires size == pm.globalNrow || size == pm.globalNcol
      requires |slot.buffer.value| == LocalSizeFor(pm, size)
      modifies this`objectName, this`interior, this`interiorName, this`indexArray, slot
      ensures interior == old(slot.buffer.value) && slot.buffer == None
      ensures objectName == name && interiorName == "Interior of " + name
      ensures indexArray == pm.boundaryIndex
    {
      Clear();
      objectName := name;
      var localSize: int := -1;
      if pm.globalNrow == size {
        localSize := pm.localNrow;
      }
      if pm.globalNcol == size {
        localSize := pm.localNcol;
      }
      assert localSize != -1 && localSize == |slot.buffer.value|;
      interior := slot.buffer.value;
      slot.buffer := None;
      interiorName := "Interior of " + name;
      indexArray := pm.boundaryIndex;
    }

    /** Hands the interior back to the caller's empty slot and leaves the vector empty. */
    method LeaveDataPtr(slot: HostSlot)
      requires slot.buffer == None
      requires |interior| > 0
      modifies this`interior, slot
      ensures slot.buffer == Some(old(interior)) && interior == []
    {
      slot.buffer := Some(interior);
      interior := [];
    }

    /** Copies the interior of another vector on the same parallel manager; nothing else changes. */
    method CopyFrom(src: GlobalVector)
      requires src != this && pm == src.pm
      modifies this`interior
      ensures interior == src.interior
    {
      interior := src.interior;
    }

    /** Cloning a distributed vector is not supported: it always ends in a fatal error. */
    method CloneFrom(src: GlobalVector) returns (st: Status)
      ensures st == Aborted(Unsupported)
    {
      st := Aborted(Unsupported);
    }

    /** The index of the largest absolute value is not supported on a distributed vector. */
    method Amax() returns (st: Status)
      ensures st == Aborted(Unsupported)
    {
      st := Aborted(Unsupported);
    }

    /** `operator[] const`: element `i` of the interior. */
    function At(i: int): (v: real)
      reads this
      requires 0 <= i < |interior|
      ensures v in interior
    {
      interior[i]
    }

    /** Writing through `operator[]`: element `i` of the interior becomes `v`. */
    method SetAt(i: int, v: real)
      requires 0 <= i < |interior|
      modifies this`interior
      ensures interior == old(interior)[i := v]
    {
      interior := interior[i := v];
    }

    /** Restriction between distributed grid levels does nothing. */
    method Restriction(fine: GlobalVector, aggregation: seq<int>)
      ensures unchanged(this) && unchanged(fine)
    {
    }

    /** Prolongation between distributed grid levels does nothing. */
    method Prolongation(coarse: GlobalVector, aggregation: seq<int>)
      ensures unchanged(this) && unchanged(coarse)
    {
    }

    /**
     * Reads rank `pm.rank`'s partition: skips that many lines of the header,
     * reads the next, strips its whitespace and prefixes the header's directory.
     */
    method ReadFile(filename: string, fs: FileSystem, format: Format) returns (st: Status)
      requires pm != null
      modifies this`interior, this`objectName, this`indexArray
      ensures st == Ok <==> ReadOutcome(fs, filename, pm.rank, format).Loaded?
      ensures st == Ok ==> (interior == ReadOutcome(fs, filename, pm.rank, format).values
                            && objectName == filename && indexArray == pm.boundaryIndex)
      ensures st != Ok ==> (st == Aborted(ReadOutcome(fs, filename, pm.rank, format).reason)
                            && unchanged(this))
    {
      if filename !in fs.files || !fs.files[filename].Text? {
        return Aborted(CannotOpen(filename));
      }
      var header := fs.files[filename].text;
      var stream := header;
      for i := 0 to pm.rank
        invariant stream == SkipLines(header, i)
      {
        stream := SkipLine(stream);
      }
      var name := GetLine(stream);
      var path := Directory(filename);
      name := StripSpace(name);
      var partition := path + name;
      assert partition == ReadPath(filename, header, pm.rank);
      if partition !in fs.files || !fs.files[partition].Values? || fs.files[partition].format != format {
        return Aborted(CannotOpen(partition));
      }
      interior := fs.files[partition].values;
      objectName := filename;
      indexArray := pm.boundaryIndex;
      st := Ok;
    }

    method ReadFileASCII(filename: string, fs: FileSystem) returns (st: Status)
      requires pm != null
      modifies this`interior, this`objectName, this`indexArray
      ensures st == Ok <==> ReadOutcome(fs, filename, pm.rank, Ascii).Loaded?
      ensures st == Ok ==> (interior == ReadOutcome(fs, filename, pm.rank, Ascii).values
                            && objectName == filename && indexArray == pm.boundaryIndex)
      ensures st != Ok ==> (st == Aborted(ReadOutcome(fs, filename, pm.rank, Ascii).reason)
                            && unchanged(this))
    {
      st := ReadFile(filename, fs, Ascii);
    }

    method ReadFileBinary(filename: string, fs: FileSystem) returns (st: Status)
      requires pm != null
      modifies this`interior, this`objectName, this`indexArray
      ensures st == Ok <==> ReadOutcome(fs, filename, pm.rank, Binary).Loaded?
      ensures st == Ok ==> (interior == ReadOutcome(fs, filename, pm.rank, Binary).values
                            && objectName == filename && indexArray == pm.boundaryIndex)
      ensures st != Ok ==> (st == Aborted(ReadOutcome(fs, filename, pm.rank, Binary).reason)
                            && unchanged(this))
    {
      st := ReadFile(filename, fs, Binary);
    }

    /**
     * Writes the vector: rank 0 writes the header, one line per rank naming
     * that rank's partition file, and every rank writes its interior to its
     * own partition file.
     */
    method WriteFile(filename: string, fs: FileSystem, format: Format) returns (st: Status, fs': FileSystem)
      requires pm != null
      ensures (st, fs') == WriteOutcome(filename, pm.rank, pm.numProcs, interior, fs, format)
    {
      fs' := fs;
      if pm.rank == 0 {
        if filename in fs.readOnly {
          return Aborted(CannotOpen(filename)), fs;
        }
        var text := "";
        for i := 0 to pm.numProcs
          invariant text == Lines(HeaderLines(filename, i))
        {
          var name := filename + ".rank." + Decimal(i);
          LinesSnoc(HeaderLines(filename, i), name);
          assert HeaderLines(filename, i + 1) == HeaderLines(filename, i) + [name];
          text := text + name + "\n";
        }
        fs' := fs'.(files := fs'.files[filename := Text(text)]);
      }
      var name := filename + ".rank." + Decimal(pm.rank);
      if name in fs.readOnly {
        return Aborted(CannotOpen(name)), fs';
      }
      fs' := fs'.(files := fs'.files[name := Values(format, interior)]);
      st := Ok;
    }

    method WriteFileASCII(filename: string, fs: FileSystem) returns (st: Status, fs': FileSystem)
      requires pm != null
      ensures (st, fs') == WriteOutcome(filename, pm.rank, pm.numProcs, interior, fs, Ascii)
    {
      st, fs' := WriteFile(filename, fs, Ascii);
    }

    method WriteFileBinary(filename: string, fs: FileSystem) returns (st: Status, fs': FileSystem)
      requires pm != null
      ensures (st, fs') == WriteOutcome(filename, pm.rank, pm.numProcs, interior, fs, Binary)
    {
      st, fs' := WriteFile(filename, fs, Binary);
    }

    /**
     * `WriteFile` as evidently intended: the header lines name the partition
     * files relative to the header's directory, which is where the reader
     * looks for them.
     */
    method CorrectedWriteFile(filename: string, fs: FileSystem, format: Format) returns (st: Status, fs': FileSystem)
      requires pm != null
      ensures (st, fs') == CorrectedWriteOutcome(filename, pm.rank, pm.numProcs, interior, fs, format)
    {
      fs' := fs;
      if pm.rank == 0 {
        if filename in fs.readOnly {
          return Aborted(CannotOpen(filename)), fs;
        }
        var text := "";
        var base := BaseName(filename);
        for i := 0 to pm.numProcs
          invariant text == Lines(CorrectedHeaderLines(filename, i))
        {
          var name := base + ".rank." + Decimal(i);
          LinesSnoc(CorrectedHeaderLines(filename, i), name);
          assert CorrectedHeaderLines(filename, i + 1) == CorrectedHeaderLines(filename, i) + [name];
          text := text + name + "\n";
        }
        fs' := fs'.(files := fs'.files[filename := Text(text)]);
      }
      var name := filename + ".rank." + Decimal(pm.rank);
      if name in fs.readOnly {
        return Aborted(CannotOpen(name)), fs';
      }
      fs' := fs'.(files := fs'.files[name := Values(format, interior)]);
      st := Ok;
    }
  }
}
