/** How the output files of a transform are named and hashed. */
module SilverKeys {
  import opened Decimal

  // ---- Hexadecimal hashes -----------------------------------------------------------------

  function HexDigit(d: nat): (c: char)
    requires d < 16
    ensures c in "0123456789abcdef"
  {
    "0123456789abcdef"[d]
  }

  function Hex(n: nat, width: nat): (s: string)
    ensures |s| == width
  {
    if width == 0 then "" else Hex(n / 16, width - 1) + [HexDigit(n % 16)]
  }

  function DigitOf(c: char): int {
    if '0' <= c <= '9' then c as int - '0' as int else 10 + c as int - 'a' as int
  }

  /** The number a hexadecimal text stands for. */
  function HexValue(s: string): int {
    if s == "" then 0 else 16 * HexValue(s[..|s| - 1]) + DigitOf(s[|s| - 1])
  }

  function Power16(width: nat): (p: nat)
    ensures p >= 1
  {
    if width == 0 then 1 else 16 * Power16(width - 1)
  }

  /** A number that fits the width is read back from its text. */
  lemma {:induction false} HexRoundTrip(n: nat, width: nat)
    requires n < Power16(width)
    ensures HexValue(Hex(n, width)) == n
  {
    if width > 0 {
      HexRoundTrip(n / 16, width - 1);
      LastOf(Hex(n / 16, width - 1), HexDigit(n % 16));
      DigitOfHex(n % 16);
    }
  }

  lemma DigitOfHex(d: nat)
    requires d < 16
    ensures DigitOf(HexDigit(d)) == d
  {
  }

  // ---- Keys -------------------------------------------------------------------------------

  const SILVER_PREFIX := "silver/"

  /** At least five digits. */
  function PartNumber(i: nat): (s: string)
    ensures AllDigits(s)
  {
    if i < 100_000 then Padded(i, 5) else Render(i)
  }

  function Key(runId: string, uuid: string, i: nat): (k: string)
    ensures SILVER_PREFIX <= k
  {
    SILVER_PREFIX + ("traffic_observations/run_id=" + runId + "/part-" + PartNumber(i) + "-" + uuid + ".parquet")
  }

  lemma PartNumberInjective(i: nat, j: nat)
    requires PartNumber(i) == PartNumber(j)
    ensures i == j
  {
    PartNumberValue(i);
    PartNumberValue(j);
  }

  lemma PartNumberValue(i: nat)
    ensures Value(PartNumber(i)) == i
  {
    if i < 100_000 {
      assert Power10(5) == 10 * 10 * Power10(3) == 100_000;
      PaddedValue(i, 5);
    } else {
      RenderValue(i);
    }
  }

  /** What stands before the first c, and what after it. */
  lemma FirstOf(a: string, c: char, p: string, b: string, q: string)
    requires c !in a && c !in b && a + [c] + p == b + [c] + q
    ensures a == b && p == q
  {
    var whole := a + [c] + p;
    assert whole[|a|] == c && (b + [c] + q)[|b|] == c;
    assert whole[..|a|] == a && (b + [c] + q)[..|b|] == b;
    assert whole[|a| + 1..] == p && (b + [c] + q)[|b| + 1..] == q;
  }

  lemma SameEnd(a: string, b: string, end: string)
    requires a + end == b + end
    ensures a == b
  {
    assert |a| == |b| && (a + end)[..|a|] == a && (b + end)[..|b|] == b;
  }

  lemma SameHead(head: string, a: string, b: string)
    requires head + a == head + b
    ensures a == b
  {
    assert (head + a)[|head|..] == a && (head + b)[|head|..] == b;
  }

  function KeyEnd(uuid: string, i: nat): string {
    "part-" + (PartNumber(i) + "-" + (uuid + ".parquet"))
  }

  lemma KeyInParts(runId: string, uuid: string, i: nat)
    ensures Key(runId, uuid, i) == (SILVER_PREFIX + "traffic_observations/run_id=") + (runId + "/" + KeyEnd(uuid, i))
  {
    var head, number := "traffic_observations/run_id=", PartNumber(i);
    assert "/part-" == "/" + "part-";
    assert head + runId + "/part-" + number + "-" + uuid + ".parquet" == head + (runId + "/" + KeyEnd(uuid, i));
  }

  /** A key of an output file tells its run, its job and its number: run ids hold no slash. */
  lemma KeyInjective(run: string, uuid: string, i: nat, other: string, id: string, j: nat)
    requires '/' !in run && '/' !in other && Key(run, uuid, i) == Key(other, id, j)
    ensures run == other && uuid == id && i == j
  {
    KeyInParts(run, uuid, i);
    KeyInParts(other, id, j);
    SameHead(SILVER_PREFIX + "traffic_observations/run_id=", run + "/" + KeyEnd(uuid, i), other + "/" + KeyEnd(id, j));
    FirstOf(run, '/', KeyEnd(uuid, i), other, KeyEnd(id, j));
    EndInjective(uuid, i, id, j);
  }

  lemma EndInjective(uuid: string, i: nat, id: string, j: nat)
    requires KeyEnd(uuid, i) == KeyEnd(id, j)
    ensures uuid == id && i == j
  {
    SameHead("part-", PartNumber(i) + "-" + (uuid + ".parquet"), PartNumber(j) + "-" + (id + ".parquet"));
    FirstOf(PartNumber(i), '-', uuid + ".parquet", PartNumber(j), id + ".parquet");
    SameEnd(uuid, id, ".parquet");
    PartNumberInjective(i, j);
  }

  /** Within one job the numbers alone tell its files apart, whatever the run id. */
  lemma NumbersTellApart(runId: string, uuid: string, i: nat, j: nat)
    requires Key(runId, uuid, i) == Key(runId, uuid, j)
    ensures i == j
  {
    KeyInParts(runId, uuid, i);
    KeyInParts(runId, uuid, j);
    SameHead(SILVER_PREFIX + "traffic_observations/run_id=", runId + "/" + KeyEnd(uuid, i),
             runId + "/" + KeyEnd(uuid, j));
    SameHead(runId + "/", KeyEnd(uuid, i), KeyEnd(uuid, j));
    EndInjective(uuid, i, uuid, j);
  }
}
