/**
 How the Spark runner names the local copy of a bronze object: every '/' of the object key
 becomes "__". Two objects whose keys flatten to the same name would overwrite each other.
 */
module KeyFlattening {

  /** The local file name of an object key. */
  function Flatten(key: string): string {
    if key == "" then ""
    else (if key[0] == '/' then "__" else [key[0]]) + Flatten(key[1..])
  }

  /** Reading a local name back, turning each "__" met from the left into '/'. */
  function Unflatten(name: string): string {
    if name == "" then ""
    else if |name| >= 2 && name[0] == '_' && name[1] == '_' then "/" + Unflatten(name[2..])
    else [name[0]] + Unflatten(name[1..])
  }

  /** No underscore of the key is followed by another underscore or ends a path segment. */
  predicate Clean(key: string) {
    forall i | 0 <= i < |key| - 1 :: key[i] == '_' ==> key[i + 1] != '_' && key[i + 1] != '/'
  }

  /** The local name determines the object key exactly when the key is clean. */
  lemma {:induction false} FlattenRoundTrip(key: string)
    ensures Unflatten(Flatten(key)) == key <==> Clean(key)
  {
    if key != "" {
      var rest := key[1..];
      FlattenRoundTrip(rest);
      CleanTail(key);
      if key[0] == '/' {
        assert Flatten(key)[2..] == Flatten(rest);
        assert Unflatten(Flatten(key)) == "/" + Unflatten(Flatten(rest));
      } else if key[0] == '_' && rest != "" && (rest[0] == '_' || rest[0] == '/') {
        assert Flatten(rest)[0] == '_';
        assert Flatten(key)[1] == '_';
        assert Unflatten(Flatten(key))[0] == '/';
      } else {
        assert rest != "" && rest[0] != '/' ==> Flatten(rest)[0] == rest[0];
        assert Flatten(key)[1..] == Flatten(rest);
        assert Unflatten(Flatten(key)) == [key[0]] + Unflatten(Flatten(rest));
      }
      assert key == [key[0]] + rest;
    }
  }

  lemma CleanTail(key: string)
    requires key != ""
    ensures Clean(key) <==>
            && Clean(key[1..])
            && (|key| >= 2 && key[0] == '_' ==> key[1] != '_' && key[1] != '/')
  {
    var rest := key[1..];
    if Clean(key) {
      forall i | 0 <= i < |rest| - 1 && rest[i] == '_'
        ensures rest[i + 1] != '_' && rest[i + 1] != '/'
      {
        assert key[i + 1] == '_';
      }
    }
    if Clean(rest) && (|key| >= 2 && key[0] == '_' ==> key[1] != '_' && key[1] != '/') {
      forall i | 0 <= i < |key| - 1 && key[i] == '_'
        ensures key[i + 1] != '_' && key[i + 1] != '/'
      {
        if i > 0 {
          assert rest[i - 1] == '_';
        }
      }
    }
  }

  lemma {:induction false} FlattenLocal(key: string)
    ensures '/' !in Flatten(key)
  {
    if key != "" {
      FlattenLocal(key[1..]);
    }
  }

  /** Every local name is the name of the key read back from it. */
  lemma {:induction false} UnflattenRoundTrip(name: string)
    requires '/' !in name
    ensures Flatten(Unflatten(name)) == name
    decreases |name|
  {
    if |name| >= 2 && name[0] == '_' && name[1] == '_' {
      UnflattenRoundTrip(name[2..]);
      var rest := Unflatten(name[2..]);
      assert ("/" + rest)[1..] == rest;
      assert name == "__" + name[2..];
    } else if name != "" {
      UnflattenRoundTrip(name[1..]);
      var rest := Unflatten(name[1..]);
      assert ([name[0]] + rest)[1..] == rest;
      assert name == [name[0]] + name[1..];
    }
  }

  /** The one clean key among all that share a local file. */
  function Canonical(key: string): string {
    Unflatten(Flatten(key))
  }

  /**
   Two keys share a local file exactly when they have the same canonical key, which shares that file
   and is clean. So a clean key shares its file with no other clean key.
   */
  lemma SharedFile(a: string, b: string)
    ensures Flatten(a) == Flatten(b) <==> Canonical(a) == Canonical(b)
    ensures Flatten(Canonical(a)) == Flatten(a) && Clean(Canonical(a))
    ensures Clean(a) <==> Canonical(a) == a
  {
    FlattenLocal(a);
    FlattenLocal(b);
    UnflattenRoundTrip(Flatten(a));
    UnflattenRoundTrip(Flatten(b));
    FlattenRoundTrip(a);
    FlattenRoundTrip(Canonical(a));
  }

  /** No two of these keys share a local file. */
  ghost predicate DistinctNames(keys: seq<string>) {
    forall a, b | a in keys && b in keys && Flatten(a) == Flatten(b) :: a == b
  }

  lemma CleanKeysApart(keys: seq<string>)
    requires forall k | k in keys :: Clean(k)
    ensures DistinctNames(keys)
  {
    forall a, b | a in keys && b in keys && Flatten(a) == Flatten(b)
      ensures a == b
    {
      FlattenInjective(a, b);
    }
  }

  /** Clean keys never share a local file. */
  lemma FlattenInjective(a: string, b: string)
    requires Clean(a) && Clean(b)
    requires Flatten(a) == Flatten(b)
    ensures a == b
  {
    FlattenRoundTrip(a);
    FlattenRoundTrip(b);
  }

  lemma FlattenSplits(key: string)
    requires key != ""
    ensures Flatten(key) == (if key[0] == '/' then "__" else [key[0]]) + Flatten(key[1..])
  {
  }

  lemma ConcatAssociative(a: string, b: string, c: string)
    ensures (a + b) + c == a + (b + c)
  {
  }

  lemma {:induction false} FlattenConcat(a: string, b: string)
    ensures Flatten(a + b) == Flatten(a) + Flatten(b)
  {
    if a == "" {
      assert a + b == b;
    } else {
      FlattenConcat(a[1..], b);
      assert (a + b)[1..] == a[1..] + b;
      ConcatAssociative(if a[0] == '/' then "__" else [a[0]], Flatten(a[1..]), Flatten(b));
    }
  }

  /** A slash leaves the same trace as two underscores. */
  lemma SlashOrUnderscores(head: string, rest: string)
    ensures Flatten(head + ("/" + rest)) == Flatten(head + ("__" + rest))
  {
    FlattenConcat(head, "/" + rest);
    FlattenConcat(head, "__" + rest);
    var slash, two, one := "/" + rest, "__" + rest, "_" + rest;
    assert slash[1..] == rest && two[1..] == one && one[1..] == rest;
    FlattenSplits(slash);
    FlattenSplits(two);
    FlattenSplits(one);
    ConcatAssociative("_", "_", Flatten(rest));
  }

  /** Two keys that do share one. */
  lemma FlattenCollision()
    ensures "a_/b" != "a/_b" && Flatten("a_/b") == Flatten("a/_b")
  {
  }

  /** Cleanness of a key built from clean pieces. */
  lemma CleanConcat(a: string, b: string)
    requires Clean(a) && Clean(b)
    requires a != "" && b != "" && a[|a| - 1] == '_' ==> b[0] != '_' && b[0] != '/'
    ensures Clean(a + b)
  {
    var k := a + b;
    forall i | 0 <= i < |k| - 1 && k[i] == '_'
      ensures k[i + 1] != '_' && k[i + 1] != '/'
    {
      if i >= |a| {
        assert b[i - |a|] == '_';
      } else if i < |a| - 1 {
        assert a[i] == '_';
      }
    }
  }

  /** A text without underscores. */
  ghost predicate Plain(s: string) {
    forall i | 0 <= i < |s| :: s[i] != '_'
  }

  lemma PlainConcat(a: string, b: string)
    requires Plain(a) && Plain(b)
    ensures Plain(a + b)
  {
  }

  lemma CleanPlain(s: string)
    requires Plain(s)
    ensures Clean(s)
  {
  }

  /** Two plain words joined by one underscore; the second may not begin a path segment. */
  lemma CleanJoin(a: string, b: string)
    requires Clean(a) && Clean(b) && (a != "" ==> a[|a| - 1] != '_')
    requires b != "" ==> b[0] != '_' && b[0] != '/'
    ensures Clean(a + "_" + b)
  {
    CleanConcat(a, "_");
    CleanConcat(a + "_", b);
  }
}
