/**
 * Image digests as text, and the byte-level rewrite of the one digest a
 * manifest pins (internal/deploy/engine.go). Bytes are modelled as characters.
 */
module Digests {
  import opened Options

  type Bytes = string

  const DIGEST_PREFIX := "sha256:"
  const DIGEST_LENGTH := 71

  predicate IsHex(c: char) {
    '0' <= c <= '9' || 'a' <= c <= 'f'
  }

  /** The pattern every requested pin must match. */
  predicate IsDigest(d: string) {
    && |d| == DIGEST_LENGTH
    && d[..7] == DIGEST_PREFIX
    && forall k :: 7 <= k < DIGEST_LENGTH ==> IsHex(d[k])
  }

  /** A pin is the algorithm's name, a colon and sixty-four lower-case hexadecimal digits. */
  lemma IsDigestWhen(d: string)
    ensures IsDigest(d) <==>
              |d| == 7 + 64 && "sha256:" <= d && forall c :: c in d[7..] ==> c in "0123456789abcdef"
  {
    assert forall c :: IsHex(c) <==> c in "0123456789abcdef";
    if |d| == 71 {
      assert forall k :: 7 <= k < 71 ==> d[k] == d[7..][k - 7];
    }
  }

  predicate OccursAt(raw: Bytes, d: string, i: int) {
    0 <= i && i + |d| <= |raw| && raw[i..i + |d|] == d
  }

  /** The first occurrence at or after a position, scanning left to right. */
  function IndexFrom(raw: Bytes, d: string, from: nat): (index: Option<nat>)
    ensures index.Some? ==> from <= index.value && OccursAt(raw, d, index.value)
    decreases |raw| - from
  {
    if OccursAt(raw, d, from) then Some(from)
    else if from >= |raw| then None
    else IndexFrom(raw, d, from + 1)
  }

  /** Non-overlapping occurrences from a position on, as bytes.Count counts them. */
  function CountFrom(raw: Bytes, d: string, from: nat): nat
    requires d != ""
    decreases |raw| - from
  {
    if OccursAt(raw, d, from) then 1 + CountFrom(raw, d, from + |d|)
    else if from >= |raw| then 0
    else CountFrom(raw, d, from + 1)
  }

  /** bytes.Count: an empty pattern is found around every character. */
  function Count(raw: Bytes, d: string): nat {
    if d == "" then |raw| + 1 else CountFrom(raw, d, 0)
  }

  /** bytes.Replace with a limit of one. */
  function ReplaceFirst(raw: Bytes, d: string, next: string): Bytes {
    match IndexFrom(raw, d, 0)
    case None => raw
    case Some(i) => raw[..i] + next + raw[i + |d|..]
  }

  /** The rewrite itself; the error carries the count that was not one. */
  function SetDigest(raw: Bytes, oldDigest: string, newDigest: string): Result<Bytes, nat> {
    var count := Count(raw, oldDigest);
    if count != 1 then Err(count) else Ok(ReplaceFirst(raw, oldDigest, newDigest))
  }

  lemma {:induction false} IndexFromIsFirst(raw: Bytes, d: string, from: nat)
    ensures match IndexFrom(raw, d, from)
            case None => forall j :: from <= j ==> !OccursAt(raw, d, j)
            case Some(i) => from <= i && OccursAt(raw, d, i) && forall j :: from <= j < i ==> !OccursAt(raw, d, j)
    decreases |raw| - from
  {
    if OccursAt(raw, d, from) {
    } else if from >= |raw| {
    } else {
      IndexFromIsFirst(raw, d, from + 1);
    }
  }

  /** A single count means the occurrence found first is followed by no further one. */
  lemma {:induction false} CountFromSkips(raw: Bytes, d: string, from: nat, i: nat)
    requires d != "" && from <= i
    requires forall j :: from <= j < i ==> !OccursAt(raw, d, j)
    ensures CountFrom(raw, d, from) == CountFrom(raw, d, i)
    decreases i - from
  {
    if from < i {
      assert !OccursAt(raw, d, from);
      if from >= |raw| {
        CountFromNone(raw, d, from);
        CountFromNone(raw, d, i);
      } else {
        CountFromSkips(raw, d, from + 1, i);
      }
    }
  }

  lemma {:induction false} CountFromNone(raw: Bytes, d: string, from: nat)
    requires d != ""
    ensures CountFrom(raw, d, from) == 0 <==> forall j :: from <= j ==> !OccursAt(raw, d, j)
    decreases |raw| - from
  {
    if OccursAt(raw, d, from) {
    } else if from >= |raw| {
    } else {
      CountFromNone(raw, d, from + 1);
    }
  }

  /** No digest overlaps a digest, itself included, at any other offset. */
  lemma DigestsDoNotOverlap(raw: Bytes, d: string, i: nat, e: string, j: nat)
    requires IsDigest(d) && IsDigest(e)
    requires OccursAt(raw, d, i) && OccursAt(raw, e, j)
    requires i <= j < i + DIGEST_LENGTH
    ensures i == j
  {
    var k := j - i;
    assert e[0] == DIGEST_PREFIX[0] == 's';
    assert raw[j] == raw[j..j + |e|][0] == 's';
    assert raw[j] == raw[i..i + |d|][k] == d[k];
    assert forall n :: 0 <= n < 7 ==> d[n] == d[..7][n];
  }

  /** The unique occurrence of a digest, if there is exactly one. */
  ghost predicate OnlyAt(raw: Bytes, d: string, i: nat) {
    OccursAt(raw, d, i) && forall j {:trigger OccursAt(raw, d, j)} :: OccursAt(raw, d, j) ==> j == i
  }

  /** For a digest, a count of one is a unique occurrence, because none can overlap it. */
  lemma CountOneIsUnique(raw: Bytes, d: string)
    requires IsDigest(d)
    ensures Count(raw, d) == 1 <==> exists i: nat :: OnlyAt(raw, d, i)
    ensures Count(raw, d) == 1 ==> IndexFrom(raw, d, 0).Some? && OnlyAt(raw, d, IndexFrom(raw, d, 0).value)
  {
    IndexFromIsFirst(raw, d, 0);
    match IndexFrom(raw, d, 0)
    case None =>
      CountFromNone(raw, d, 0);
      forall i: nat ensures !OnlyAt(raw, d, i) { assert !OccursAt(raw, d, i); }
    case Some(i) =>
      CountFromSkips(raw, d, 0, i);
      assert CountFrom(raw, d, i) == 1 + CountFrom(raw, d, i + |d|);
      CountFromNone(raw, d, i + |d|);
      if CountFrom(raw, d, i + |d|) == 0 {
        forall j | OccursAt(raw, d, j) ensures j == i {
          if i < j < i + |d| { DigestsDoNotOverlap(raw, d, i, d, j); }
        }
        assert OnlyAt(raw, d, i);
      } else {
        var j :| i + |d| <= j && OccursAt(raw, d, j);
        forall k: nat ensures !OnlyAt(raw, d, k) { assert OccursAt(raw, d, i) && OccursAt(raw, d, j); }
      }
  }

  /**
   * The rewrite succeeds exactly when the old digest occurs exactly once, and
   * then it changes that window and nothing else.
   */
  lemma SetDigestIsExact(raw: Bytes, oldDigest: string, newDigest: string)
    requires IsDigest(oldDigest) && IsDigest(newDigest)
    ensures SetDigest(raw, oldDigest, newDigest).Ok? <==> exists i: nat :: OnlyAt(raw, oldDigest, i)
    ensures forall i: nat :: OnlyAt(raw, oldDigest, i) ==>
              SetDigest(raw, oldDigest, newDigest) == Ok(raw[..i] + newDigest + raw[i + DIGEST_LENGTH..])
  {
    CountOneIsUnique(raw, oldDigest);
    forall i: nat | OnlyAt(raw, oldDigest, i)
      ensures SetDigest(raw, oldDigest, newDigest) == Ok(raw[..i] + newDigest + raw[i + DIGEST_LENGTH..])
    {
      assert OccursAt(raw, oldDigest, IndexFrom(raw, oldDigest, 0).value);
    }
  }

  /** A digest's occurrences after the rewrite: the window, and wherever it stood clear of the window before. */
  lemma OccurrencesAfter(raw: Bytes, i: nat, oldDigest: string, newDigest: string, d: string, j: nat)
    requires IsDigest(oldDigest) && IsDigest(newDigest) && IsDigest(d)
    requires OccursAt(raw, oldDigest, i)
    ensures var out := raw[..i] + newDigest + raw[i + DIGEST_LENGTH..];
            && OccursAt(out, newDigest, i)
            && (OccursAt(out, d, j) <==> if i == j then d == newDigest else OccursAt(raw, d, j))
  {
    var out := raw[..i] + newDigest + raw[i + DIGEST_LENGTH..];
    assert out[i..i + DIGEST_LENGTH] == newDigest;
    if j + DIGEST_LENGTH <= i || i + DIGEST_LENGTH <= j {
      if j + DIGEST_LENGTH <= |raw| {
        assert out[j..j + DIGEST_LENGTH] == raw[j..j + DIGEST_LENGTH];
      }
    } else {
      if OccursAt(out, d, j) {
        if i <= j {
          DigestsDoNotOverlap(out, newDigest, i, d, j);
        } else {
          DigestsDoNotOverlap(out, d, j, newDigest, i);
        }
      }
      if OccursAt(raw, d, j) {
        if i <= j {
          DigestsDoNotOverlap(raw, oldDigest, i, d, j);
        } else {
          DigestsDoNotOverlap(raw, d, j, oldDigest, i);
        }
      }
    }
  }

  /** Writing a window back restores the file. */
  lemma WindowRestored(raw: Bytes, i: nat, oldDigest: string, newDigest: string)
    requires |oldDigest| == |newDigest| && oldDigest != newDigest && OccursAt(raw, oldDigest, i)
    ensures var out := raw[..i] + newDigest + raw[i + |oldDigest|..];
            && |out| == |raw| && out != raw
            && out[..i] + oldDigest + out[i + |oldDigest|..] == raw
  {
    var out := raw[..i] + newDigest + raw[i + |oldDigest|..];
    assert out[i..i + |oldDigest|] == newDigest;
    assert raw == raw[..i] + raw[i..i + |oldDigest|] + raw[i + |oldDigest|..];
  }

  /**
   * Setting the old digest back recovers the file exactly when the new digest
   * did not already occur in it; otherwise the second rewrite is refused.
   */
  lemma SetDigestReversesExactly(raw: Bytes, oldDigest: string, newDigest: string)
    requires IsDigest(oldDigest) && IsDigest(newDigest) && oldDigest != newDigest
    requires SetDigest(raw, oldDigest, newDigest).Ok?
    ensures var out := SetDigest(raw, oldDigest, newDigest).value;
            && out != raw && |out| == |raw|
            && (SetDigest(out, newDigest, oldDigest) == Ok(raw) <==> forall j: nat :: !OccursAt(raw, newDigest, j))
            && (SetDigest(out, newDigest, oldDigest).Ok? ==> SetDigest(out, newDigest, oldDigest) == Ok(raw))
  {
    SetDigestIsExact(raw, oldDigest, newDigest);
    var i: nat :| OnlyAt(raw, oldDigest, i);
    var out := SetDigest(raw, oldDigest, newDigest).value;
    WindowRestored(raw, i, oldDigest, newDigest);
    OccurrencesAfter(raw, i, oldDigest, newDigest, newDigest, i);
    SetDigestIsExact(out, newDigest, oldDigest);
    if j: nat :| OccursAt(raw, newDigest, j) {
      OccurrencesAfter(raw, i, oldDigest, newDigest, newDigest, j);
      assert forall k: nat :: !OnlyAt(out, newDigest, k);
    } else {
      forall j | OccursAt(out, newDigest, j) ensures j == i {
        OccurrencesAfter(raw, i, oldDigest, newDigest, newDigest, j);
      }
      assert OnlyAt(out, newDigest, i);
    }
  }

  /**
   * Whatever the digests look like, a successful rewrite to a different one
   * changes the file; and one of an empty pin succeeds only on an empty file.
   */
  lemma SetDigestChangesTheFile(raw: Bytes, oldDigest: string, newDigest: string)
    requires oldDigest != newDigest && SetDigest(raw, oldDigest, newDigest).Ok?
    ensures SetDigest(raw, oldDigest, newDigest).value != raw
    ensures oldDigest == "" ==> raw == ""
  {
    IndexFromIsFirst(raw, oldDigest, 0);
    if oldDigest != "" {
      CountFromNone(raw, oldDigest, 0);
    } else {
      assert raw[0..0] == "";
      assert OccursAt(raw, oldDigest, 0);
    }
    var i := IndexFrom(raw, oldDigest, 0).value;
    var out := ReplaceFirst(raw, oldDigest, newDigest);
    assert out == raw[..i] + newDigest + raw[i + |oldDigest|..];
    if |newDigest| == |oldDigest| {
      assert out[i..i + |newDigest|] == newDigest;
    }
  }
}
