/** The range that a prefix request asks etcd for. */
module EtcdPrefix {
  newtype byte = n: int | 0 <= n < 256

  type Key = seq<byte>

  /** etcd's order on keys. */
  predicate Less(a: Key, b: Key) {
    b != [] && (a == [] || a[0] < b[0] || (a[0] == b[0] && Less(a[1..], b[1..])))
  }

  predicate AtMost(a: Key, b: Key) {
    !Less(b, a)
  }

  /** The keys a request with a range end selects; the end "\0" means no upper bound. */
  predicate Selects(key: Key, rangeEnd: Key, s: Key) {
    AtMost(key, s) && (rangeEnd == [0] || Less(s, rangeEnd))
  }

  /** `ascii + 1` stored back into a `char`. */
  function Bump(b: byte): byte {
    if b == 255 then 0 else b + 1
  }

  /** What `EtcdClientV3::Range` and `EtcdWatcher::Watch` send as the end of a prefix request. */
  function RangeEnd(key: Key): Key
    requires key != []
  {
    key[..|key| - 1] + [Bump(key[|key| - 1])]
  }

  /** What the protocol documents as "key plus one": bytes 0xff at the end are dropped, the byte before
      them is incremented, and a key of nothing but 0xff has no end. */
  function KeyPlusOne(key: Key): Key {
    if key == [] then [0]
    else if key[|key| - 1] < 255 then key[..|key| - 1] + [key[|key| - 1] + 1]
    else KeyPlusOne(key[..|key| - 1])
  }

  lemma {:induction false} PrefixIsAtLeast(key: Key, s: Key)
    requires key <= s
    ensures AtMost(key, s)
  {
    if key != [] {
      PrefixIsAtLeast(key[1..], s[1..]);
    }
  }

  /** Between a key and the key with its last byte incremented lie exactly the keys it is a prefix of. */
  lemma {:induction false} IncrementBounds(key: Key, s: Key)
    requires key != [] && key[|key| - 1] < 255
    ensures var end := key[..|key| - 1] + [key[|key| - 1] + 1];
            AtMost(key, s) && Less(s, end) <==> key <= s
  {
    var end := key[..|key| - 1] + [key[|key| - 1] + 1];
    if key <= s {
      PrefixIsAtLeast(key, s);
    }
    if s != [] {
      if |key| == 1 {
        assert end[1..] == [] && key[1..] == [];
      } else {
        var k := key[1..];
        IncrementBounds(k, s[1..]);
        assert end[1..] == k[..|k| - 1] + [k[|k| - 1] + 1];
        assert key <= s <==> key[0] == s[0] && k <= s[1..];
      }
    }
  }

  /** A key and one that differs from it only in a smaller last byte are in that order. */
  lemma {:induction false} SmallerLastByte(stem: Key, a: byte, b: byte)
    requires a < b
    ensures Less(stem + [a], stem + [b])
  {
    if stem != [] {
      SmallerLastByte(stem[1..], a, b);
      assert (stem + [a])[1..] == stem[1..] + [a];
      assert (stem + [b])[1..] == stem[1..] + [b];
    }
  }

  lemma {:induction false} BelowIsTransitive(a: Key, b: Key, c: Key)
    requires AtMost(a, b) && Less(b, c)
    ensures Less(a, c)
  {
    if a != [] && b != [] && a[0] == b[0] == c[0] {
      BelowIsTransitive(a[1..], b[1..], c[1..]);
    }
  }

  lemma {:induction false} LessIsAsymmetric(a: Key, b: Key)
    requires Less(a, b)
    ensures !Less(b, a)
  {
    if a != [] && a[0] == b[0] {
      LessIsAsymmetric(a[1..], b[1..]);
    }
  }

  /** At 0xff the end wraps to a smaller key, and nothing lies in between. */
  lemma WrappedEndIsEmpty(key: Key, s: Key)
    requires |key| > 1 && key[|key| - 1] == 255
    ensures !Selects(key, RangeEnd(key), s)
  {
    var stem := key[..|key| - 1];
    assert key == stem + [255] && RangeEnd(key) == stem + [0];
    SmallerLastByte(stem, 0, 255);
    LessIsAsymmetric(RangeEnd(key), key);
    if Selects(key, RangeEnd(key), s) {
      BelowIsTransitive(key, s, RangeEnd(key));
    }
  }

  lemma {:induction false} AllOnesBound(key: Key, s: Key)
    requires forall i :: 0 <= i < |key| ==> key[i] == 255
    ensures AtMost(key, s) <==> key <= s
  {
    if key != [] && s != [] {
      AllOnesBound(key[1..], s[1..]);
      assert key <= s <==> key[0] == s[0] && key[1..] <= s[1..];
    }
  }

  /** A prefix request selects exactly the keys with the prefix if and only if the last byte can be
      incremented or the key is a single byte. */
  lemma PrefixRangeIsExactly(key: Key)
    requires key != []
    ensures (forall s: Key :: Selects(key, RangeEnd(key), s) <==> key <= s) <==>
            (key[|key| - 1] < 255 || |key| == 1)
  {
    if key[|key| - 1] < 255 {
      forall s: Key ensures Selects(key, RangeEnd(key), s) <==> key <= s {
        IncrementBounds(key, s);
        assert RangeEnd(key)[|key| - 1] != 0;
      }
    } else if |key| == 1 {
      forall s: Key ensures Selects(key, RangeEnd(key), s) <==> key <= s {
        AllOnesBound(key, s);
      }
    } else {
      WrappedEndIsEmpty(key, key);
    }
  }

  lemma {:induction false} CommonStem(stem: Key, a: Key, b: Key)
    ensures Less(stem + a, stem + b) <==> Less(a, b)
  {
    if stem == [] {
      assert stem + a == a && stem + b == b;
    } else {
      CommonStem(stem[1..], a, b);
      assert (stem + a)[1..] == stem[1..] + a;
      assert (stem + b)[1..] == stem[1..] + b;
    }
  }

  lemma {:induction false} StemIsAtMost(stem: Key, rest: Key, s: Key)
    requires AtMost(stem + rest, s)
    ensures AtMost(stem, s)
  {
    if stem != [] && s != [] && stem[0] == s[0] {
      assert (stem + rest)[1..] == stem[1..] + rest;
      StemIsAtMost(stem[1..], rest, s[1..]);
    }
  }

  lemma {:induction false} DocumentedEndFits(stem: Key, ones: Key, s: Key)
    requires forall i :: 0 <= i < |ones| ==> ones[i] == 255
    ensures Selects(stem + ones, KeyPlusOne(stem), s) <==> stem + ones <= s
  {
    if stem == [] {
      assert stem + ones == ones;
      AllOnesBound(ones, s);
    } else if stem[|stem| - 1] < 255 {
      IncrementBounds(stem, s);
      assert KeyPlusOne(stem)[|stem| - 1] != 0;
      if AtMost(stem + ones, s) {
        StemIsAtMost(stem, ones, s);
      }
      if stem <= s {
        var rest := s[|stem|..];
        assert s == stem + rest;
        CommonStem(stem, rest, ones);
        AllOnesBound(ones, rest);
        assert stem + ones <= s <==> ones <= rest;
      }
    } else {
      var shorter := stem[..|stem| - 1];
      DocumentedEndFits(shorter, [255] + ones, s);
      assert shorter + ([255] + ones) == stem + ones;
    }
  }

  /** The end that the protocol documents selects exactly the keys with the prefix, for every key. */
  lemma DocumentedEndIsExact(key: Key, s: Key)
    ensures Selects(key, KeyPlusOne(key), s) <==> key <= s
  {
    DocumentedEndFits(key, [], s);
    assert key + [] == key;
  }

  /** The code sends that end exactly when no carry is needed. */
  lemma NoCarryExactly(key: Key)
    requires key != []
    ensures RangeEnd(key) == KeyPlusOne(key) <==> key[|key| - 1] < 255 || |key| == 1
  {
    if |key| > 1 && key[|key| - 1] == 255 {
      WrappedEndIsEmpty(key, key);
      DocumentedEndIsExact(key, key);
    }
  }
}
