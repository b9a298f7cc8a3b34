/** How the Seoul connector names what it observes: event identities and object keys. */
module SeoulIdentity {
  import opened Clock
  import Obs = Observations

  function StableKey(area: string, segment: string, snapshot: Utc): string
    requires Valid(snapshot)
  {
    "SEOUL_CITYDATA:" + area + ":" + segment + ":" + Iso(snapshot)
  }

  /** The timestamp is a suffix of fixed length, so only area and segment can run together. */
  lemma StableKeysEqual(a: string, s: string, t: Utc, b: string, r: string, u: Utc)
    requires Valid(t) && Valid(u) && t.micro == u.micro
    ensures StableKey(a, s, t) == StableKey(b, r, u) <==> a + ":" + s == b + ":" + r && t == u
  {
    var head := "SEOUL_CITYDATA:";
    var x, y := a + ":" + s, b + ":" + r;
    assert StableKey(a, s, t) == head + x + ":" + Iso(t);
    assert StableKey(b, r, u) == head + y + ":" + Iso(u);
    if StableKey(a, s, t) == StableKey(b, r, u) {
      var k := StableKey(a, s, t);
      assert |x| == |y|;
      assert x == k[|head|..|head| + |x|] == y;
      assert Iso(t) == k[|k| - 25..] == Iso(u);
      IsoInjective(t, u);
    }
  }

  /** How many characters stand before the first colon. */
  function BeforeColon(k: string): nat {
    if k == "" || k[0] == ':' then 0 else 1 + BeforeColon(k[1..])
  }

  lemma {:induction false} FirstColon(a: string, s: string)
    requires ':' !in a
    ensures BeforeColon(a + ":" + s) == |a|
  {
    if a != "" {
      FirstColon(a[1..], s);
      assert (a + ":" + s)[1..] == a[1..] + ":" + s;
    }
  }

  lemma JoinedByColon(a: string, s: string, b: string, r: string)
    requires ':' !in a && ':' !in b
    ensures a + ":" + s == b + ":" + r <==> a == b && s == r
  {
    FirstColon(a, s);
    FirstColon(b, r);
    if a + ":" + s == b + ":" + r {
      assert a + (":" + s) == b + (":" + r) by {
        assert a + ":" + s == a + (":" + s) && b + ":" + r == b + (":" + r);
      }
      SameLengthParts(a, ":" + s, b, ":" + r);
      SameLengthParts(":", s, ":", r);
    }
  }

  /** Texts that agree split alike where the parts have equal length. */
  lemma SameLengthParts(a: string, s: string, b: string, r: string)
    requires a + s == b + r && (|a| == |b| || |s| == |r|)
    ensures a == b && s == r
  {
    var k := a + s;
    assert k == b + r;
    assert |a| == |b|;
    assert a == k[..|a|] && b == k[..|a|];
    assert s == k[|a|..] && r == k[|a|..];
  }

  /**
   Event identity: two retrievals give one identity exactly when area, road link and five-minute
   window are the same, provided area codes contain no colon. Link ids may contain colons.
   */
  lemma EventIdentity(a: string, s: string, t: Utc, b: string, r: string, u: Utc)
    requires Valid(t) && Valid(u) && ':' !in a && ':' !in b
    ensures Valid(Snapshot(t)) && Valid(Snapshot(u))
    ensures StableKey(a, s, Snapshot(t)) == StableKey(b, r, Snapshot(u)) <==>
            a == b && s == r && Window(EpochMicros(t)) == Window(EpochMicros(u))
  {
    SnapshotIsEpochFloor(t);
    SnapshotIsEpochFloor(u);
    StableKeysEqual(a, s, Snapshot(t), b, r, Snapshot(u));
    JoinedByColon(a, s, b, r);
    SameSnapshotSameWindow(t, u);
  }

  lemma ColonPrefix(a: string, s: string, b: string, r: string)
    requires a + ":" + s == b + ":" + r && |a| <= |b|
    ensures a == b || a + ":" <= b
  {
    var k := a + ":" + s;
    assert k == b + ":" + r;
    if |a| == |b| {
      assert a == k[..|a|] == b;
    } else {
      assert a + ":" == k[..|a| + 1] == b[..|a| + 1];
    }
  }

  /** Some links the contract accepts share an identity although they are of two areas. */
  ghost predicate Confusable(a: string, b: string, t: Utc)
    requires Valid(t)
  {
    exists s, r :: Obs.ValidSegmentId(s) && Obs.ValidSegmentId(r) && StableKey(a, s, t) == StableKey(b, r, t)
  }

  /** b continues a by a colon and by what an accepted link may begin with. */
  ghost predicate Continues(a: string, b: string) {
    && a + ":" <= b
    && var rest := b[|a| + 1..];
       1 <= |rest| <= 76 && Obs.AlphaNumeric(rest[0]) && forall i | 1 <= i < |rest| :: Obs.SegmentChar(rest[i])
  }

  lemma ConfusedByContinuing(a: string, s: string, b: string, r: string)
    requires a + ":" + s == b + ":" + r && a + ":" <= b
    requires Obs.ValidSegmentId(s) && Obs.ValidSegmentId(r)
    ensures Continues(a, b)
  {
    var rest := b[|a| + 1..];
    assert b == a + ":" + rest;
    assert a + ":" + s == a + ":" + (rest + ":" + r) by {
      assert b + ":" + r == a + ":" + (rest + ":" + r);
    }
    SameLengthParts(a + ":", s, a + ":", rest + ":" + r);
    assert s == rest + (":" + r);
    assert rest == s[..|rest|];
    assert rest == "" ==> s == ":" + r;
  }

  lemma ContinuingConfuses(a: string, b: string, t: Utc)
    requires Valid(t) && Continues(a, b)
    ensures Confusable(a, b, t)
  {
    var rest, r := b[|a| + 1..], "AAA";
    var s := rest + ":" + r;
    assert b == a + ":" + rest;
    assert a + ":" + s == b + ":" + r;
    StableKeysEqual(a, s, t, b, r, t);
    assert Obs.ValidSegmentId(s) && Obs.ValidSegmentId(r);
  }

  lemma ConfusableSymmetric(a: string, b: string, t: Utc)
    requires Valid(t) && Confusable(a, b, t)
    ensures Confusable(b, a, t)
  {
    var s, r :| Obs.ValidSegmentId(s) && Obs.ValidSegmentId(r) && StableKey(a, s, t) == StableKey(b, r, t);
    assert StableKey(b, r, t) == StableKey(a, s, t);
  }

  /**
   With colons allowed in them, two different area codes can be confused through links the contract
   accepts exactly when one continues the other by a colon and then like an accepted link.
   */
  lemma AreaCodesConfusable(a: string, b: string, t: Utc)
    requires Valid(t) && a != b
    ensures Confusable(a, b, t) <==> Continues(a, b) || Continues(b, a)
  {
    if Confusable(a, b, t) {
      var s, r :| Obs.ValidSegmentId(s) && Obs.ValidSegmentId(r) && StableKey(a, s, t) == StableKey(b, r, t);
      StableKeysEqual(a, s, t, b, r, t);
      if |a| <= |b| {
        ColonPrefix(a, s, b, r);
        ConfusedByContinuing(a, s, b, r);
      } else {
        ColonPrefix(b, r, a, s);
        ConfusedByContinuing(b, r, a, s);
      }
    }
    if Continues(a, b) {
      ContinuingConfuses(a, b, t);
    }
    if Continues(b, a) {
      ContinuingConfuses(b, a, t);
      ConfusableSymmetric(b, a, t);
    }
  }

  /** Two accepted links of two areas with one identity. */
  lemma ConfusedLinks(t: Utc)
    requires Valid(t)
    ensures Obs.ValidSegmentId("X:123") && Obs.ValidSegmentId("123")
    ensures StableKey("P1", "X:123", t) == StableKey("P1:X", "123", t)
  {
    assert "P1" + ":" + "X:123" == "P1:X" + ":" + "123";
    StableKeysEqual("P1", "X:123", t, "P1:X", "123", t);
  }

  // ---- Object keys ----------------------------------------------------------------------

  const SEOUL_PREFIX := "bronze/seoul_citydata/"

  function KeyHead(snapshot: Utc): (s: string)
    requires Valid(snapshot)
    ensures |s| == 57 && SEOUL_PREFIX <= s
  {
    SEOUL_PREFIX + "observed_date=" + Date(snapshot) + "/area_code="
  }

  function KeyTail(snapshot: Utc, hash: string): (s: string)
    requires Valid(snapshot) && |hash| >= 12
    ensures |s| == 45
  {
    "/snapshot-" + MinuteStamp(snapshot) + "-" + hash[..12] + ".parquet"
  }

  /** The bronze key of one area's snapshot; `hash` is the hexadecimal digest of its payload. */
  function SnapshotKey(area: string, snapshot: Utc, hash: string): (k: string)
    requires Valid(snapshot) && |hash| >= 12
    ensures SEOUL_PREFIX <= k
  {
    KeyHead(snapshot) + area + KeyTail(snapshot, hash)
  }

  /** A key tells area, snapshot and hash prefix, because its two ends have a fixed length. */
  lemma SnapshotKeyInjective(a: string, t: Utc, h: string, b: string, u: Utc, g: string)
    requires Valid(t) && Valid(u) && |h| >= 12 && |g| >= 12
    requires t.second == u.second && t.micro == u.micro
    requires SnapshotKey(a, t, h) == SnapshotKey(b, u, g)
    ensures t == u && h[..12] == g[..12] && a == b
  {
    SameLengthParts(KeyHead(t) + a, KeyTail(t, h), KeyHead(u) + b, KeyTail(u, g));
    KeyTailInjective(t, h, u, g);
    SameLengthParts(KeyHead(t), a, KeyHead(u), b);
  }

  lemma KeyTailInjective(t: Utc, h: string, u: Utc, g: string)
    requires Valid(t) && Valid(u) && |h| >= 12 && |g| >= 12
    requires t.second == u.second && t.micro == u.micro
    requires KeyTail(t, h) == KeyTail(u, g)
    ensures t == u && h[..12] == g[..12]
  {
    var end1, end2 := KeyTail(t, h), KeyTail(u, g);
    assert end1[10..24] == MinuteStamp(t) && end2[10..24] == MinuteStamp(u);
    assert end1[25..37] == h[..12] && end2[25..37] == g[..12];
    MinuteStampInjective(t, u);
  }

  /** What a key says: the day of the snapshot, the area, the snapshot to the minute, the hash prefix. */
  lemma SnapshotKeyReads(area: string, snapshot: Utc, hash: string)
    requires Valid(snapshot) && |hash| >= 12
    ensures var key := SnapshotKey(area, snapshot, hash);
            var end := |key| - 45;
            && end == 57 + |area| && ShowsDay(key, 36, snapshot) && key[57..end] == area
            && key[end + 10..end + 24] == MinuteStamp(snapshot) && key[end + 25..end + 37] == hash[..12]
  {
    var head := KeyHead(snapshot);
    assert head[36..46] == Date(snapshot);
    assert KeyTail(snapshot, hash) == "/snapshot-" + MinuteStamp(snapshot) + "-" + hash[..12] + ".parquet";
    KeyParts(head, area, MinuteStamp(snapshot), hash[..12], ".parquet", 36);
    DayShown(SnapshotKey(area, snapshot, hash), 36, snapshot);
  }

  lemma KeyParts(head: string, area: string, stamp: string, hash: string, extension: string, at: nat)
    requires at + 10 <= |head| && |stamp| == 14 && |hash| == 12 && |extension| == 8
    ensures var key := head + area + ("/snapshot-" + stamp + "-" + hash + extension);
            var end := |key| - 45;
            && end == |head| + |area| && key[at..at + 10] == head[at..at + 10] && key[|head|..end] == area
            && key[end + 10..end + 24] == stamp && key[end + 25..end + 37] == hash
  {
  }
}
