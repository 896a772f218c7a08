/**
 * Names of the partitioned file set a distributed vector is saved to: the
 * header file lists one partition file per rank, and each rank finds its own
 * partition by reading its line of the header.
 *
 * Strings here are the program's `std::string`s, one `char` per byte.
 */
module PartitionNames {

  /** `isspace` in the "C" locale: space, tab, newline, vertical tab, form feed, carriage return. */
  predicate IsSpace(c: char) {
    c == ' ' || c == '\t' || c == '\n' || c == 11 as char || c == 12 as char || c == '\r'
  }

  /** The two characters `find_last_of("\\/")` looks for. */
  predicate IsSeparator(c: char) {
    c == '/' || c == '\\'
  }

  predicate IsDigit(c: char) {
    '0' <= c <= '9'
  }

  predicate NoSpace(s: string) {
    forall i :: 0 <= i < |s| ==> !IsSpace(s[i])
  }

  predicate NoNewline(s: string) {
    forall i :: 0 <= i < |s| ==> s[i] != '\n'
  }

  predicate NoSeparator(s: string) {
    forall i :: 0 <= i < |s| ==> !IsSeparator(s[i])
  }

  function DigitChar(d: nat): (c: char)
    requires d < 10
    ensures IsDigit(c) && c as int - '0' as int == d
  {
    ('0' as int + d) as char
  }

  /** The text `std::ostringstream << n` produces for a non-negative `int`. */
  function Decimal(n: nat): (s: string)
    ensures 0 < |s|
    ensures forall i :: 0 <= i < |s| ==> IsDigit(s[i])
    ensures 10 <= n ==> s[0] != '0'
  {
    if n < 10 then [DigitChar(n)] else Decimal(n / 10) + [DigitChar(n % 10)]
  }

  /** The number a string of decimal digits denotes; the inverse of `Decimal`. */
  function DigitsValue(s: string): nat
    requires forall i :: 0 <= i < |s| ==> IsDigit(s[i])
  {
    if s == [] then 0 else DigitsValue(s[..|s| - 1]) * 10 + DigitValue(s[|s| - 1])
  }

  function DigitValue(c: char): (d: nat)
    requires IsDigit(c)
    ensures d < 10
  {
    c as int - '0' as int
  }

  lemma {:induction false} DecimalRoundTrip(n: nat)
    ensures DigitsValue(Decimal(n)) == n
  {
    if 10 <= n {
      var s := Decimal(n);
      assert s[..|s| - 1] == Decimal(n / 10);
      DecimalRoundTrip(n / 10);
    }
  }

  /** Distinct ranks print as distinct decimal texts. */
  lemma DecimalInjective(a: nat, b: nat)
    requires Decimal(a) == Decimal(b)
    ensures a == b
  {
    DecimalRoundTrip(a);
    DecimalRoundTrip(b);
  }

  /** The file rank `rank` writes its partition to: `filename + ".rank." + rank`. */
  function PartitionName(filename: string, rank: nat): string {
    filename + ".rank." + Decimal(rank)
  }

  lemma PartitionNamesDistinct(filename: string, i: nat, j: nat)
    requires i != j
    ensures PartitionName(filename, i) != PartitionName(filename, j)
  {
    var prefix := filename + ".rank.";
    assert PartitionName(filename, i)[|prefix|..] == Decimal(i);
    assert PartitionName(filename, j)[|prefix|..] == Decimal(j);
    if PartitionName(filename, i) == PartitionName(filename, j) {
      DecimalInjective(i, j);
    }
  }

  /** The lines rank 0 writes to the header, one per rank, as the program writes them. */
  function HeaderLines(filename: string, numProcs: nat): seq<string> {
    seq(numProcs, i requires 0 <= i < numProcs => PartitionName(filename, i))
  }

  /** The text of a file made of `lines`, each followed by a newline. */
  function Lines(lines: seq<string>): string {
    if lines == [] then "" else lines[0] + "\n" + Lines(lines[1..])
  }

  /** Appending one line to the header text, as the writing loop does. */
  lemma {:induction false} LinesSnoc(lines: seq<string>, last: string)
    ensures Lines(lines + [last]) == Lines(lines) + last + "\n"
  {
    if lines == [] {
      assert lines + [last] == [last];
      assert [last][1..] == [];
    } else {
      assert (lines + [last])[0] == lines[0];
      assert (lines + [last])[1..] == lines[1..] + [last];
      LinesSnoc(lines[1..], last);
    }
  }

  /** What `ignore(max, '\n')` leaves of a stream: the text after the first newline, or nothing. */
  function SkipLine(t: string): (rest: string)
    ensures |rest| <= |t| && rest == t[|t| - |rest|..]
  {
    if t == [] then [] else if t[0] == '\n' then t[1..] else SkipLine(t[1..])
  }

  /** The stream after `k` calls of `ignore(max, '\n')`. */
  function SkipLines(t: string, k: nat): string {
    if k == 0 then t else SkipLine(SkipLines(t, k - 1))
  }

  /** What `std::getline` extracts: the text before the first newline (empty at end of stream). */
  function GetLine(t: string): (line: string)
    ensures NoNewline(line)
  {
    if t == [] || t[0] == '\n' then [] else [t[0]] + GetLine(t[1..])
  }

  /** `name.erase(remove_if(..., isspace), ...)`: every whitespace character removed. */
  function StripSpace(s: string): (r: string)
    ensures NoSpace(r)
    ensures |r| <= |s|
  {
    if s == [] then [] else (if IsSpace(s[0]) then [] else [s[0]]) + StripSpace(s[1..])
  }

  /** `find_last_of("\\/")`: the index of the last separator, or -1 (npos) when there is none. */
  function LastSeparator(f: string): (k: int)
    ensures -1 <= k < |f|
    ensures 0 <= k ==> IsSeparator(f[k])
    ensures forall j :: k < j < |f| ==> !IsSeparator(f[j])
  {
    if f == [] then -1
    else if IsSeparator(f[|f| - 1]) then |f| - 1
    else LastSeparator(f[..|f| - 1])
  }

  /**
   * `filename.substr(0, found + 1)`: the directory part, separator included.
   * With no separator `found` is npos and `found + 1` wraps to 0, giving "".
   */
  function Directory(f: string): string {
    f[..LastSeparator(f) + 1]
  }

  /** What follows the directory part. */
  function BaseName(f: string): string {
    f[LastSeparator(f) + 1..]
  }

  /** The path rank `rank` reads its partition from, given the header's text. */
  function ReadPath(filename: string, header: string, rank: nat): string {
    Directory(filename) + StripSpace(GetLine(SkipLines(header, rank)))
  }

  lemma DirectoryThenBaseName(f: string)
    ensures Directory(f) + BaseName(f) == f
    ensures NoSeparator(BaseName(f))
    ensures Directory(f) == "" <==> LastSeparator(f) == -1
  {
  }

  lemma {:induction false} SkipLineAfter(x: string, rest: string)
    requires NoNewline(x)
    ensures SkipLine(x + "\n" + rest) == rest
    ensures GetLine(x + "\n" + rest) == x
  {
    if x == [] {
      assert x + "\n" + rest == "\n" + rest;
    } else {
      assert (x + "\n" + rest)[0] == x[0];
      assert (x + "\n" + rest)[1..] == x[1..] + "\n" + rest;
      SkipLineAfter(x[1..], rest);
      assert [x[0]] + x[1..] == x;
    }
  }

  lemma {:induction false} SkipLinesOfLines(lines: seq<string>, k: nat)
    requires k <= |lines|
    requires forall i :: 0 <= i < |lines| ==> NoNewline(lines[i])
    ensures SkipLines(Lines(lines), k) == Lines(lines[k..])
  {
    if 0 < k {
      SkipLinesOfLines(lines, k - 1);
      assert lines[k - 1..][0] == lines[k - 1];
      assert lines[k - 1..][1..] == lines[k..];
      SkipLineAfter(lines[k - 1], Lines(lines[k..]));
    }
  }

  /**
   * Skipping `k` lines of a header and reading one yields line `k`, and the
   * empty string once the header has run out of lines.
   */
  lemma HeaderLineAt(lines: seq<string>, k: nat)
    requires forall i :: 0 <= i < |lines| ==> NoNewline(lines[i])
    ensures GetLine(SkipLines(Lines(lines), k)) == if k < |lines| then lines[k] else ""
  {
    if k < |lines| {
      SkipLinesOfLines(lines, k);
      assert lines[k..][0] == lines[k];
      assert lines[k..][1..] == lines[k + 1..];
      SkipLineAfter(lines[k], Lines(lines[k + 1..]));
    } else {
      SkipLinesOfLines(lines, |lines|);
      assert lines[|lines|..] == [];
      SkipLinesPastEnd(Lines(lines), |lines|, k);
    }
  }

  /** Once the stream is exhausted, skipping further lines leaves it exhausted. */
  lemma {:induction false} SkipLinesPastEnd(t: string, j: nat, k: nat)
    requires j <= k && SkipLines(t, j) == ""
    ensures SkipLines(t, k) == ""
  {
    if j < k {
      SkipLinesPastEnd(t, j, k - 1);
      assert SkipLines(t, k) == SkipLine(SkipLines(t, k - 1)) == SkipLine("");
    }
  }

  lemma {:induction false} StripSpaceOfNoSpace(s: string)
    requires NoSpace(s)
    ensures StripSpace(s) == s
  {
    if s != [] {
      StripSpaceOfNoSpace(s[1..]);
      assert [s[0]] + s[1..] == s;
    }
  }

  /** Removing whitespace changes a string exactly when it holds some. */
  lemma StripSpaceIdentity(s: string)
    ensures StripSpace(s) == s <==> NoSpace(s)
  {
    if NoSpace(s) {
      StripSpaceOfNoSpace(s);
    }
  }

  lemma {:induction false} StripSpaceKeeps(s: string, i: nat)
    requires i < |s| && !IsSpace(s[i])
    ensures s[i] in StripSpace(s)
  {
    if 0 < i {
      StripSpaceKeeps(s[1..], i - 1);
      assert s[1..][i - 1] == s[i];
    }
  }

  lemma SuffixIsPlain(n: nat)
    ensures NoSpace(".rank." + Decimal(n)) && NoSeparator(".rank." + Decimal(n))
    ensures NoNewline(".rank." + Decimal(n))
  {
    var s := ".rank." + Decimal(n);
    forall i | 0 <= i < |s|
      ensures !IsSpace(s[i]) && !IsSeparator(s[i])
    {
      if 6 <= i {
        assert s[i] == Decimal(n)[i - 6];
      }
    }
  }

  lemma HeaderLinesHaveNoNewline(filename: string, numProcs: nat)
    requires NoNewline(filename)
    ensures forall i :: 0 <= i < numProcs ==> NoNewline(HeaderLines(filename, numProcs)[i])
  {
    forall i | 0 <= i < numProcs
      ensures NoNewline(HeaderLines(filename, numProcs)[i])
    {
      SuffixIsPlain(i);
    }
  }

  /** The path rank `r` derives from the header the program writes. */
  lemma WrittenHeaderReadPath(filename: string, numProcs: nat, r: nat)
    requires r < numProcs && NoNewline(filename)
    ensures ReadPath(filename, Lines(HeaderLines(filename, numProcs)), r)
         == Directory(filename) + StripSpace(PartitionName(filename, r))
  {
    HeaderLinesHaveNoNewline(filename, numProcs);
    HeaderLineAt(HeaderLines(filename, numProcs), r);
  }

  /** Where the characters of a partition name come from. */
  lemma PartitionNameAt(filename: string, r: nat, i: nat)
    requires i < |PartitionName(filename, r)|
    ensures i < |filename| ==> PartitionName(filename, r)[i] == filename[i]
    ensures |filename| <= i ==> var c := PartitionName(filename, r)[i]; !IsSpace(c) && !IsSeparator(c) && c != '\n'
  {
    if |filename| <= i {
      SuffixIsPlain(r);
      assert PartitionName(filename, r)[i] == (".rank." + Decimal(r))[i - |filename|];
    }
  }

  lemma PartitionNameNoSpace(filename: string, r: nat)
    ensures NoSpace(PartitionName(filename, r)) <==> NoSpace(filename)
  {
    var x := PartitionName(filename, r);
    if NoSpace(filename) {
      forall i | 0 <= i < |x| ensures !IsSpace(x[i]) {
        PartitionNameAt(filename, r, i);
      }
    } else {
      var i :| 0 <= i < |filename| && IsSpace(filename[i]);
      PartitionNameAt(filename, r, i);
    }
  }

  /**
   * When the file name has a directory part, the path read differs from the
   * path written: the last separator survives whitespace removal, yet nothing
   * after the directory part is a separator.
   */
  lemma DirectoryPrefixBreaksPath(filename: string, r: nat)
    requires LastSeparator(filename) != -1
    ensures Directory(filename) + StripSpace(PartitionName(filename, r)) != PartitionName(filename, r)
  {
    var x := PartitionName(filename, r);
    var k := LastSeparator(filename);
    var dir := Directory(filename);
    if dir + StripSpace(x) == x {
      PartitionNameAt(filename, r, k);
      StripSpaceKeeps(x, k);
      var j :| 0 <= j < |StripSpace(x)| && StripSpace(x)[j] == x[k];
      var p := |dir| + j;
      assert x[p] == StripSpace(x)[j];
      PartitionNameAt(filename, r, p);
    }
  }

  /**
   * As written, rank `r` finds the file rank `r` wrote exactly when the file
   * name has neither a directory part nor whitespace.
   */
  lemma ReadFindsWrittenPartitionIff(filename: string, numProcs: nat, r: nat)
    requires r < numProcs && NoNewline(filename)
    ensures ReadPath(filename, Lines(HeaderLines(filename, numProcs)), r) == PartitionName(filename, r)
        <==> LastSeparator(filename) == -1 && NoSpace(filename)
  {
    WrittenHeaderReadPath(filename, numProcs, r);
    var x := PartitionName(filename, r);
    if LastSeparator(filename) == -1 {
      assert Directory(filename) == "";
      assert Directory(filename) + StripSpace(x) == StripSpace(x);
      StripSpaceIdentity(x);
      PartitionNameNoSpace(filename, r);
    } else {
      DirectoryPrefixBreaksPath(filename, r);
    }
  }

  /**
   * Concretely: with one rank and the file name "out/v", the partition is
   * written to "out/v.rank.0" but looked for at "out/out/v.rank.0".
   */
  lemma AsWrittenMissesPartitionInDirectory(f: string)
    requires f == "out/v"
    ensures PartitionName(f, 0) == "out/v.rank.0"
    ensures ReadPath(f, Lines(HeaderLines(f, 1)), 0) == "out/out/v.rank.0"
  {
    var x := PartitionName(f, 0);
    assert x == "out/v.rank.0" by {
      assert Decimal(0) == "0";
    }
    var dir := Directory(f);
    assert dir == "out/" by {
      assert f[4] == 'v' && f[..4] == "out/";
      assert LastSeparator(f) == LastSeparator("out/") == 3;
    }
    var stripped := StripSpace(x);
    assert stripped == x by {
      assert NoSpace(x);
      StripSpaceOfNoSpace(x);
    }
    assert NoNewline(f);
    WrittenHeaderReadPath(f, 1, 0);
    assert ReadPath(f, Lines(HeaderLines(f, 1)), 0) == dir + stripped;
  }

  /** A line of the header as evidently intended: relative to the header's directory. */
  function CorrectedHeaderLine(filename: string, rank: nat): string {
    BaseName(filename) + ".rank." + Decimal(rank)
  }

  /** The corrected header lines, one per rank. */
  function CorrectedHeaderLines(filename: string, numProcs: nat): seq<string> {
    seq(numProcs, i requires 0 <= i < numProcs => CorrectedHeaderLine(filename, i))
  }

  lemma CorrectedHeaderLineParts(filename: string, r: nat)
    ensures Directory(filename) + CorrectedHeaderLine(filename, r) == PartitionName(filename, r)
    ensures NoSpace(CorrectedHeaderLine(filename, r)) <==> NoSpace(BaseName(filename))
    ensures NoNewline(filename) ==> NoNewline(CorrectedHeaderLine(filename, r))
  {
    var base := BaseName(filename);
    var y := CorrectedHeaderLine(filename, r);
    DirectoryThenBaseName(filename);
    SuffixIsPlain(r);
    assert y == base + (".rank." + Decimal(r));
    forall i | |base| <= i < |y|
      ensures !IsSpace(y[i]) && y[i] != '\n'
    {
      assert y[i] == (".rank." + Decimal(r))[i - |base|];
    }
    if NoNewline(filename) {
      forall i | 0 <= i < |base| ensures base[i] != '\n' {
        assert base[i] == filename[|Directory(filename)| + i];
      }
    }
    if !NoSpace(base) {
      var i :| 0 <= i < |base| && IsSpace(base[i]);
      assert y[i] == base[i];
    }
  }

  /**
   * With the corrected header, rank `r` reads exactly the file it wrote,
   * whenever the base name holds no whitespace (which the reader strips).
   */
  lemma CorrectedReadFindsWrittenPartition(filename: string, numProcs: nat, r: nat)
    requires r < numProcs && NoNewline(filename)
    ensures ReadPath(filename, Lines(CorrectedHeaderLines(filename, numProcs)), r) == PartitionName(filename, r)
        <==> NoSpace(BaseName(filename))
  {
    var lines := CorrectedHeaderLines(filename, numProcs);
    forall i | 0 <= i < numProcs
      ensures NoNewline(lines[i])
    {
      CorrectedHeaderLineParts(filename, i);
    }
    HeaderLineAt(lines, r);
    var dir := Directory(filename);
    var y := CorrectedHeaderLine(filename, r);
    CorrectedHeaderLineParts(filename, r);
    StripSpaceIdentity(y);
    if dir + StripSpace(y) == dir + y {
      assert StripSpace(y) == (dir + StripSpace(y))[|dir|..];
    }
  }
}
