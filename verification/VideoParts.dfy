/** The arithmetic of multipart uploads: how many parts a file has and which part lists are accepted. */
module VideoParts {
  import opened Types

  const PART_SIZE: int := 8 * 1024 * 1024
  const MAX_PART_NUMBER: int := 10_000
  const MAX_INT64: int := 0x7fff_ffff_ffff_ffff
  const TWO_TO_64: int := 0x1_0000_0000_0000_0000

  datatype Part = Part(number: int, etag: string, size: int)

  predicate IsInt64(x: int) {
    -MAX_INT64 - 1 <= x <= MAX_INT64
  }

  /** Two's complement wrap-around of a 64-bit result. */
  function Wrap(x: int): int {
    var m := x % TWO_TO_64;
    if m > MAX_INT64 then m - TWO_TO_64 else m
  }

  /** Division truncating toward zero, for a positive divisor. */
  function Quotient(x: int, d: int): int
    requires d > 0
  {
    if x >= 0 then x / d else -((-x) / d)
  }

  /** The number of parts as the presigning and the subset check compute it. */
  function PartCount(fileSize: int): int {
    Quotient(Wrap(fileSize - 1), PART_SIZE) + 1
  }

  /** The number of parts as the completeness check computes it. */
  function RoundedUpCount(fileSize: int): int {
    Quotient(Wrap(fileSize + PART_SIZE - 1), PART_SIZE)
  }

  /** The two ceiling formulas agree exactly where the second one does not overflow. */
  lemma CountsAgree(fileSize: int)
    requires 0 < fileSize <= MAX_INT64
    ensures PartCount(fileSize) == RoundedUpCount(fileSize) <==> fileSize + PART_SIZE - 1 <= MAX_INT64
    ensures fileSize + PART_SIZE - 1 > MAX_INT64 ==> RoundedUpCount(fileSize) < 0
  {
  }

  lemma PartCountIsCeiling(fileSize: int)
    requires 0 < fileSize <= MAX_INT64
    ensures PartCount(fileSize) >= 1
    ensures (PartCount(fileSize) - 1) * PART_SIZE < fileSize <= PartCount(fileSize) * PART_SIZE
  {
  }

  function WantSize(fileSize: int, number: int): int {
    if number == PartCount(fileSize) then fileSize - (number - 1) * PART_SIZE else PART_SIZE
  }

  predicate PartFits(part: Part, fileSize: int) {
    1 <= part.number <= PartCount(fileSize) && !Blank(part.etag) && part.size == WantSize(fileSize, part.number)
  }

  /** A list of parts that can still be completed: ascending numbers, each part of its prescribed size. */
  predicate UsableSubset(parts: seq<Part>, fileSize: int) {
    && fileSize > 0
    && (forall i :: 0 <= i < |parts| ==> PartFits(parts[i], fileSize))
    && (forall i, j :: 0 <= i < j < |parts| ==> parts[i].number < parts[j].number)
  }

  predicate Complete(parts: seq<Part>, fileSize: int) {
    |parts| == RoundedUpCount(fileSize) && UsableSubset(parts, fileSize)
  }

  method ValidUploadedPartSubset(parts: seq<Part>, fileSize: int) returns (ok: bool)
    requires IsInt64(fileSize)
    ensures ok == UsableSubset(parts, fileSize)
  {
    if fileSize <= 0 {
      return false;
    }
    var wantCount := PartCount(fileSize);
    var previous := 0;
    for i := 0 to |parts|
      invariant previous == if i == 0 then 0 else parts[i - 1].number
      invariant UsableSubset(parts[..i], fileSize)
    {
      var part := parts[i];
      if part.number <= previous || part.number > wantCount {
        assert !PartFits(parts[i], fileSize) || (i > 0 && parts[i - 1].number >= parts[i].number);
        return false;
      }
      var wantSize := PART_SIZE;
      if part.number == wantCount {
        wantSize := fileSize - (part.number - 1) * PART_SIZE;
      }
      if Blank(part.etag) || part.size != wantSize {
        return false;
      }
      previous := part.number;
      assert parts[..i + 1] == parts[..i] + [part];
    }
    assert parts[..|parts|] == parts;
    return true;
  }

  method ValidUploadedParts(parts: seq<Part>, fileSize: int) returns (ok: bool)
    requires IsInt64(fileSize)
    ensures ok == Complete(parts, fileSize)
  {
    if fileSize <= 0 {
      return false;
    }
    if |parts| != RoundedUpCount(fileSize) {
      return false;
    }
    ok := ValidUploadedPartSubset(parts, fileSize);
  }

  /** The part numbers handed out when an upload starts. */
  method AllPartNumbers(fileSize: int) returns (numbers: Result<seq<int>, Error>)
    requires IsInt64(fileSize)
    ensures numbers.Ok? <==> 0 < fileSize <= PART_SIZE * MAX_PART_NUMBER
    ensures numbers.Ok? ==>
              && |numbers.value| == PartCount(fileSize)
              && forall i :: 0 <= i < |numbers.value| ==> numbers.value[i] == i + 1
  {
    if fileSize <= 0 {
      return Err(InvalidParams);
    }
    var count := PartCount(fileSize);
    if count <= 0 || count > MAX_PART_NUMBER {
      return Err(InvalidParams);
    }
    var list := [];
    for i := 0 to count
      invariant |list| == i
      invariant forall k :: 0 <= k < i ==> list[k] == k + 1
    {
      list := list + [i + 1];
    }
    return Ok(list);
  }

  function TotalSize(parts: seq<Part>): int {
    if parts == [] then 0 else TotalSize(parts[..|parts| - 1]) + parts[|parts| - 1].size
  }

  lemma {:induction false} NumbersGrow(parts: seq<Part>, fileSize: int, i: nat)
    requires UsableSubset(parts, fileSize) && i < |parts|
    ensures i + 1 <= parts[i].number <= PartCount(fileSize) - (|parts| - 1 - i)
    decreases i
  {
    NumbersAbove(parts, fileSize, i);
    NumbersBelow(parts, fileSize, i);
  }

  lemma {:induction false} NumbersAbove(parts: seq<Part>, fileSize: int, i: nat)
    requires UsableSubset(parts, fileSize) && i < |parts|
    ensures i + 1 <= parts[i].number
  {
    assert PartFits(parts[i], fileSize);
    if i > 0 {
      NumbersAbove(parts, fileSize, i - 1);
    }
  }

  lemma {:induction false} NumbersBelow(parts: seq<Part>, fileSize: int, i: nat)
    requires UsableSubset(parts, fileSize) && i < |parts|
    ensures parts[i].number <= PartCount(fileSize) - (|parts| - 1 - i)
    decreases |parts| - i
  {
    assert PartFits(parts[i], fileSize);
    if i + 1 < |parts| {
      NumbersBelow(parts, fileSize, i + 1);
    }
  }

  lemma {:induction false} PrefixSize(parts: seq<Part>, fileSize: int, k: nat)
    requires k <= |parts| == PartCount(fileSize)
    requires forall i :: 0 <= i < |parts| ==> parts[i].number == i + 1 && parts[i].size == WantSize(fileSize, i + 1)
    ensures TotalSize(parts[..k]) == if k == |parts| && k > 0 then fileSize else k * PART_SIZE
  {
    if k > 0 {
      PrefixSize(parts, fileSize, k - 1);
      assert parts[..k][..k - 1] == parts[..k - 1];
      assert parts[k - 1].size == WantSize(fileSize, k);
    }
  }

  /**
    A complete list is exactly the parts 1..n in order, its sizes add up to the file size and its
    last part is neither empty nor larger than a part.
   */
  lemma CompleteParts(parts: seq<Part>, fileSize: int)
    requires IsInt64(fileSize) && Complete(parts, fileSize)
    ensures |parts| == PartCount(fileSize) && |parts| > 0
    ensures forall i :: 0 <= i < |parts| ==> parts[i].number == i + 1
    ensures forall i :: 0 <= i < |parts| - 1 ==> parts[i].size == PART_SIZE
    ensures 0 < parts[|parts| - 1].size <= PART_SIZE
    ensures TotalSize(parts) == fileSize
  {
    CountsAgree(fileSize);
    PartCountIsCeiling(fileSize);
    forall i | 0 <= i < |parts| ensures parts[i].number == i + 1 && parts[i].size == WantSize(fileSize, i + 1) {
      NumbersGrow(parts, fileSize, i);
      assert PartFits(parts[i], fileSize);
    }
    PrefixSize(parts, fileSize, |parts|);
    assert parts[..|parts|] == parts;
  }

  /** Which lists are complete, said without the counting formulas. */
  lemma CompleteIff(parts: seq<Part>, fileSize: int)
    requires 0 < fileSize <= MAX_INT64
    ensures Complete(parts, fileSize) <==>
            && fileSize + PART_SIZE - 1 <= MAX_INT64
            && |parts| > 0 && (|parts| - 1) * PART_SIZE < fileSize <= |parts| * PART_SIZE
            && forall i :: 0 <= i < |parts| ==>
                 && parts[i].number == i + 1 && !Blank(parts[i].etag)
                 && parts[i].size == if i == |parts| - 1 then fileSize - i * PART_SIZE else PART_SIZE
  {
    CountsAgree(fileSize);
    PartCountIsCeiling(fileSize);
    if Complete(parts, fileSize) {
      CompleteParts(parts, fileSize);
      assert forall i :: 0 <= i < |parts| ==> PartFits(parts[i], fileSize);
    } else if fileSize + PART_SIZE - 1 <= MAX_INT64 && |parts| > 0
           && (|parts| - 1) * PART_SIZE < fileSize <= |parts| * PART_SIZE {
      assert |parts| == PartCount(fileSize);
    }
  }
}
