/** Ordered key buckets: bbolt visits keys in byte order, and a prefix scan seeks then walks. */
module Buckets {

  predicate HasPrefix(s: string, prefix: string)
  {
    |prefix| <= |s| && s[..|prefix|] == prefix
  }

  /** Byte order; code point order agrees with it on UTF-8. */
  predicate Less(a: string, b: string)
  {
    b != "" && (a == "" || a[0] < b[0] || (a[0] == b[0] && Less(a[1..], b[1..])))
  }

  lemma {:induction false} LessTotal(a: string, b: string)
    ensures Less(a, b) || Less(b, a) || a == b
    ensures !(Less(a, b) && Less(b, a))
    ensures !Less(a, a)
  {
    if a != "" && b != "" {
      LessTotal(a[1..], b[1..]);
      if a[0] == b[0] && a[1..] == b[1..] { assert a == [a[0]] + a[1..] && b == [b[0]] + b[1..]; }
    }
    if a != "" { LessTotal(a[1..], a[1..]); }
  }

  lemma {:induction false} LessTransitive(a: string, b: string, c: string)
    requires Less(a, b) && Less(b, c)
    ensures Less(a, c)
  {
    if a != "" && a[0] == b[0] == c[0] { LessTransitive(a[1..], b[1..], c[1..]); }
  }

  ghost predicate Sorted(ks: seq<string>)
  {
    forall i, j :: 0 <= i < j < |ks| ==> Less(ks[i], ks[j])
  }

  function Elements(ks: seq<string>): set<string>
  {
    set k | k in ks
  }

  lemma {:induction false} MinimumExists(keys: set<string>)
    requires keys != {}
    ensures exists m :: m in keys && forall k :: k in keys && k != m ==> Less(m, k)
  {
    var x :| x in keys;
    if keys == {x} {
      assert forall k :: k in keys && k != x ==> Less(x, k);
    } else {
      MinimumExists(keys - {x});
      var m :| m in keys - {x} && forall k :: k in keys - {x} && k != m ==> Less(m, k);
      LessTotal(x, m);
      if Less(m, x) {
        assert forall k :: k in keys && k != m ==> Less(m, k);
      } else {
        forall k | k in keys && k != x ensures Less(x, k) {
          if k != m { LessTransitive(x, m, k); }
        }
      }
    }
  }

  /** The order in which a bucket's keys are visited. */
  ghost function SortedKeys(keys: set<string>): (ks: seq<string>)
    ensures forall k :: k in ks <==> k in keys
    ensures |ks| == |keys|
  {
    if keys == {} then [] else var m := Minimum(keys); [m] + SortedKeys(keys - {m})
  }

  ghost function Minimum(keys: set<string>): (m: string)
    requires keys != {}
    ensures m in keys && forall k :: k in keys && k != m ==> Less(m, k)
  {
    MinimumExists(keys);
    var m :| m in keys && forall k :: k in keys && k != m ==> Less(m, k);
    m
  }

  lemma {:induction false} SortedKeysSorted(keys: set<string>)
    ensures Sorted(SortedKeys(keys))
    ensures Elements(SortedKeys(keys)) == keys
  {
    if keys != {} {
      var m := Minimum(keys);
      SortedKeysSorted(keys - {m});
      forall j | 0 < j < |keys| ensures Less(m, SortedKeys(keys)[j]) {
        assert SortedKeys(keys)[j] in SortedKeys(keys - {m});
      }
    }
  }

  lemma {:induction false} SortedUnique(a: seq<string>, b: seq<string>)
    requires Sorted(a) && Sorted(b) && Elements(a) == Elements(b)
    ensures a == b
  {
    assert |a| > 0 ==> a[0] in Elements(b);
    assert |b| > 0 ==> b[0] in Elements(a);
    if a != [] {
      assert a[0] in Elements(b) && (b == [] || b[0] in Elements(a));
      var i :| 0 <= i < |b| && b[i] == a[0];
      var j :| 0 <= j < |a| && a[j] == b[0];
      LessTotal(a[0], b[0]);
      assert a[0] == b[0];
      forall k ensures k in a[1..] <==> k in b[1..] {
        assert k in a <==> k in b by { assert k in Elements(a) <==> k in Elements(b); }
        LessTotal(a[0], a[0]);
        assert a[0] !in a[1..] && b[0] !in b[1..];
        assert a == [a[0]] + a[1..] && b == [b[0]] + b[1..];
      }
      SortedUnique(a[1..], b[1..]);
    }
  }

  lemma InsertElements(ks: seq<string>, at: nat, k: string)
    requires at <= |ks|
    ensures Elements(ks[..at] + [k] + ks[at..]) == Elements(ks) + {k}
  {
    assert ks == ks[..at] + ks[at..];
  }

  /** Insertion keeps the visiting order, so a method can list a bucket as the spec does. */
  method ListKeys(keys: set<string>) returns (ks: seq<string>)
    ensures ks == SortedKeys(keys)
  {
    ks := [];
    var rest := keys;
    while rest != {}
      invariant rest <= keys
      invariant Sorted(ks) && Elements(ks) == keys - rest
      decreases rest
    {
      var k :| k in rest;
      assert k !in Elements(ks);
      var at := 0;
      while at < |ks| && Less(ks[at], k)
        invariant 0 <= at <= |ks|
        invariant forall i :: 0 <= i < at ==> Less(ks[i], k)
      {
        at := at + 1;
      }
      forall i | at <= i < |ks| ensures Less(k, ks[i]) {
        assert ks[i] in Elements(ks);
        LessTotal(ks[at], k);
        assert ks[at] in Elements(ks);
        if i > at { LessTransitive(k, ks[at], ks[i]); }
      }
      InsertElements(ks, at, k);
      ks := ks[..at] + [k] + ks[at..];
      rest := rest - {k};
    }
    SortedKeysSorted(keys);
    SortedUnique(ks, SortedKeys(keys));
  }

  /** Everything between a prefix and one of its extensions extends the prefix too. */
  lemma {:induction false} PrefixConvex(prefix: string, b: string, c: string)
    requires HasPrefix(c, prefix)
    requires b == prefix || Less(prefix, b)
    requires Less(b, c)
    ensures HasPrefix(b, prefix)
  {
    if prefix != "" {
      assert c[0] == prefix[0] && b[0] == prefix[0];
      assert HasPrefix(c[1..], prefix[1..]);
      PrefixConvex(prefix[1..], b[1..], c[1..]);
      assert b[..|prefix|] == [b[0]] + b[1..][..|prefix| - 1];
    }
  }

  lemma {:induction false} PrefixNotLess(prefix: string, k: string)
    requires HasPrefix(k, prefix)
    ensures !Less(k, prefix)
  {
    if prefix != "" { PrefixNotLess(prefix[1..], k[1..]); }
  }

  function WithPrefix(ks: seq<string>, prefix: string): seq<string>
  {
    if ks == [] then []
    else (if HasPrefix(ks[0], prefix) then [ks[0]] else []) + WithPrefix(ks[1..], prefix)
  }

  lemma {:induction false} WithPrefixMembers(ks: seq<string>, prefix: string, k: string)
    ensures k in WithPrefix(ks, prefix) <==> k in ks && HasPrefix(k, prefix)
  {
    if ks != [] {
      WithPrefixMembers(ks[1..], prefix, k);
      assert ks == [ks[0]] + ks[1..];
    }
  }

  lemma {:induction false} WithPrefixSplit(a: seq<string>, b: seq<string>, prefix: string)
    ensures WithPrefix(a + b, prefix) == WithPrefix(a, prefix) + WithPrefix(b, prefix)
  {
    if a == [] {
      assert a + b == b;
    } else {
      assert (a + b)[0] == a[0] && (a + b)[1..] == a[1..] + b;
      WithPrefixSplit(a[1..], b, prefix);
    }
  }

  lemma WithPrefixNone(ks: seq<string>, prefix: string)
    requires forall k :: k in ks ==> !HasPrefix(k, prefix)
    ensures WithPrefix(ks, prefix) == []
  {
  }

  lemma {:induction false} WithPrefixAll(ks: seq<string>, prefix: string)
    requires forall k :: k in ks ==> HasPrefix(k, prefix)
    ensures WithPrefix(ks, prefix) == ks
  {
    if ks != [] { WithPrefixAll(ks[1..], prefix); }
  }

  /**
   * A cursor that seeks to the prefix and stops at the first key without it
   * visits exactly the keys carrying the prefix, in order.
   */
  method ScanPrefix(keys: set<string>, prefix: string) returns (found: seq<string>)
    ensures found == WithPrefix(SortedKeys(keys), prefix)
  {
    var ks := ListKeys(keys);
    var start := Seek(ks, prefix);
    var stop := Walk(ks, prefix, start);
    SortedKeysSorted(keys);
    found := ks[start..stop];
    WindowIsPrefix(ks, prefix, start, stop);
  }

  method Seek(ks: seq<string>, prefix: string) returns (start: nat)
    ensures start <= |ks|
    ensures forall i :: 0 <= i < start ==> Less(ks[i], prefix)
    ensures start < |ks| ==> !Less(ks[start], prefix)
  {
    start := 0;
    while start < |ks| && Less(ks[start], prefix)
      invariant start <= |ks|
      invariant forall i :: 0 <= i < start ==> Less(ks[i], prefix)
    {
      start := start + 1;
    }
  }

  method Walk(ks: seq<string>, prefix: string, start: nat) returns (stop: nat)
    requires start <= |ks|
    ensures start <= stop <= |ks|
    ensures forall i :: start <= i < stop ==> HasPrefix(ks[i], prefix)
    ensures stop < |ks| ==> !HasPrefix(ks[stop], prefix)
  {
    stop := start;
    while stop < |ks| && HasPrefix(ks[stop], prefix)
      invariant start <= stop <= |ks|
      invariant forall i :: start <= i < stop ==> HasPrefix(ks[i], prefix)
    {
      stop := stop + 1;
    }
  }

  lemma BelowSeek(ks: seq<string>, prefix: string, start: nat)
    requires start <= |ks| && forall i :: 0 <= i < start ==> Less(ks[i], prefix)
    ensures WithPrefix(ks[..start], prefix) == []
  {
    forall k | k in ks[..start] ensures !HasPrefix(k, prefix) {
      if HasPrefix(k, prefix) { PrefixNotLess(prefix, k); }
    }
    WithPrefixNone(ks[..start], prefix);
  }

  lemma BeyondStop(ks: seq<string>, prefix: string, start: nat, stop: nat)
    requires Sorted(ks) && start <= stop <= |ks|
    requires start < |ks| ==> !Less(ks[start], prefix)
    requires stop < |ks| ==> !HasPrefix(ks[stop], prefix)
    ensures WithPrefix(ks[stop..], prefix) == []
  {
    forall i | stop <= i < |ks| ensures !HasPrefix(ks[i], prefix) {
      if HasPrefix(ks[i], prefix) {
        LessTotal(ks[start], prefix);
        LessTotal(ks[stop], prefix);
        if Less(ks[stop], prefix) { LessTransitive(ks[start], ks[stop], prefix); }
        PrefixConvex(prefix, ks[stop], ks[i]);
      }
    }
    WithPrefixNone(ks[stop..], prefix);
  }

  lemma WindowIsPrefix(ks: seq<string>, prefix: string, start: nat, stop: nat)
    requires Sorted(ks) && start <= stop <= |ks|
    requires forall i :: 0 <= i < start ==> Less(ks[i], prefix)
    requires start < |ks| ==> !Less(ks[start], prefix)
    requires forall i :: start <= i < stop ==> HasPrefix(ks[i], prefix)
    requires stop < |ks| ==> !HasPrefix(ks[stop], prefix)
    ensures ks[start..stop] == WithPrefix(ks, prefix)
  {
    BelowSeek(ks, prefix, start);
    BeyondStop(ks, prefix, start, stop);
    WithPrefixAll(ks[start..stop], prefix);
    ThreeParts(ks, prefix, start, stop);
  }

  lemma ThreeParts(ks: seq<string>, prefix: string, start: nat, stop: nat)
    requires start <= stop <= |ks|
    ensures WithPrefix(ks, prefix) ==
      WithPrefix(ks[..start], prefix) + WithPrefix(ks[start..stop], prefix) + WithPrefix(ks[stop..], prefix)
  {
    assert ks == ks[..start] + ks[start..];
    assert ks[start..] == ks[start..stop] + ks[stop..];
    WithPrefixSplit(ks[..start], ks[start..], prefix);
    WithPrefixSplit(ks[start..stop], ks[stop..], prefix);
  }

  // ---- stamping a set of keys with one value ----

  function StampKeys<K>(epochs: map<K, nat>, keys: set<K>, epoch: nat): map<K, nat>
  {
    epochs + (map k | k in keys :: epoch)
  }

  function Unstamped<K>(epochs: map<K, nat>, keys: set<K>, epoch: nat): set<K>
  {
    set k | k in keys && !(k in epochs && epochs[k] == epoch)
  }

  lemma StampOne<K>(epochs: map<K, nat>, rest: set<K>, k: K, epoch: nat)
    requires k in rest
    ensures StampKeys(epochs, rest, epoch) == StampKeys(epochs[k := epoch], rest - {k}, epoch)
  {
  }

  lemma CountOne<K>(epochs: map<K, nat>, rest: set<K>, k: K, epoch: nat)
    requires k in rest
    ensures |Unstamped(epochs, rest, epoch)|
         == |Unstamped(epochs, rest - {k}, epoch)| + if k in epochs && epochs[k] == epoch then 0 else 1
  {
    assert Unstamped(epochs, rest, epoch) == Unstamped(epochs, rest - {k}, epoch) + if k in epochs && epochs[k] == epoch then {} else {k};
  }

  method StampAll<K(==)>(stored: map<K, nat>, owned: set<K>, epoch: nat) returns (epochs: map<K, nat>)
    ensures epochs == StampKeys(stored, owned, epoch)
  {
    var rest := owned;
    epochs := stored;
    while rest != {}
      invariant StampKeys(epochs, rest, epoch) == StampKeys(stored, owned, epoch)
      decreases rest
    {
      var k :| k in rest;
      StampOne(epochs, rest, k, epoch);
      epochs := epochs[k := epoch];
      rest := rest - {k};
    }
  }

  method CountUnstamped<K(==)>(epochs: map<K, nat>, owned: set<K>, epoch: nat) returns (count: nat)
    ensures count == |Unstamped(epochs, owned, epoch)|
  {
    var rest := owned;
    count := 0;
    while rest != {}
      invariant count + |Unstamped(epochs, rest, epoch)| == |Unstamped(epochs, owned, epoch)|
      decreases rest
    {
      var k :| k in rest;
      CountOne(epochs, rest, k, epoch);
      if !(k in epochs && epochs[k] == epoch) { count := count + 1; }
      rest := rest - {k};
    }
  }
}
