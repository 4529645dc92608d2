/**
 * Truth tables, the '0'/'1' bit strings used to persist them, and the
 * `format!("{:0width$b}", i)` input patterns that compilation enumerates.
 */
module TruthTables {

  /** A compiled lookup table from an input vector to an output vector. */
  datatype TruthTable = TruthTable(entries: map<seq<bool>, seq<bool>>) {

    /** `TruthTable::add`: inserts (or overwrites) one association. */
    function Add(inputs: seq<bool>, outputs: seq<bool>): (t: TruthTable)
      ensures t.entries.Keys == entries.Keys + {inputs}
      ensures t.entries[inputs] == outputs
      ensures forall k :: k in entries && k != inputs ==> t.entries[k] == entries[k]
    {
      TruthTable(entries[inputs := outputs])
    }

    /** `TruthTable::get`: the lookup unwraps, so an absent key is a caller error. */
    function Get(inputs: seq<bool>): seq<bool>
      requires inputs in entries
    {
      entries[inputs]
    }
  }

  /** `TruthTable::new`. */
  function EmptyTable(): (t: TruthTable)
    ensures |t.entries| == 0
  {
    TruthTable(map[])
  }

  // ---------------------------------------------------------------------
  // Bit strings (vec_bool_to_string / string_to_vec_bool)
  // ---------------------------------------------------------------------

  /** `vec_bool_to_string`: one character per pin, '1' for true and '0' for false. */
  function ToBitString(v: seq<bool>): (s: string)
    ensures |s| == |v|
    ensures forall i :: 0 <= i < |v| ==> (s[i] == '1' <==> v[i])
    ensures forall i :: 0 <= i < |v| ==> (s[i] == '0' <==> !v[i])
  {
    if v == [] then [] else [if v[0] then '1' else '0'] + ToBitString(v[1..])
  }

  /** `string_to_vec_bool`: every character other than '1' reads as false. */
  function FromBitString(s: string): (v: seq<bool>)
    ensures |v| == |s|
    ensures forall i :: 0 <= i < |s| ==> (v[i] <==> s[i] == '1')
  {
    if s == [] then [] else [s[0] == '1'] + FromBitString(s[1..])
  }

  /** Reading back a written bit string gives the original vector. */
  lemma {:induction false} BitStringRoundTrip(v: seq<bool>)
    ensures FromBitString(ToBitString(v)) == v
  {
    if v != [] {
      BitStringRoundTrip(v[1..]);
      assert ToBitString(v)[1..] == ToBitString(v[1..]);
    }
  }

  /** Two vectors with the same bit string are equal. */
  lemma ToBitStringInjective(v: seq<bool>, w: seq<bool>)
    requires ToBitString(v) == ToBitString(w)
    ensures v == w
  {
    BitStringRoundTrip(v);
    BitStringRoundTrip(w);
  }

  lemma {:induction false} FromBitStringAppend(s: string, t: string)
    ensures FromBitString(s + t) == FromBitString(s) + FromBitString(t)
  {
    if s != [] {
      assert (s + t)[1..] == s[1..] + t;
      FromBitStringAppend(s[1..], t);
    }
  }

  // ---------------------------------------------------------------------
  // Serialised form: a list of (bit string, outputs) pairs
  // ---------------------------------------------------------------------

  type Pair = (string, seq<bool>)

  /**
   * `Serialize for TruthTable`: the pairs (bit string of key, outputs).
   * The map's iteration order is unspecified, so the form is a set.
   */
  function Serialize(t: TruthTable): (pairs: set<Pair>)
    ensures forall p :: p in pairs ==> Records(t, p)
  {
    var pairs := set k | k in t.entries :: (ToBitString(k), t.entries[k]);
    assert forall p :: p in pairs ==> Records(t, p) by {
      forall p | p in pairs ensures Records(t, p) {
        var k :| k in t.entries && p == (ToBitString(k), t.entries[k]);
        BitStringRoundTrip(k);
      }
    }
    pairs
  }

  /** The pair `p` records an association of `t`. */
  predicate Records(t: TruthTable, p: Pair)
  {
    FromBitString(p.0) in t.entries && t.entries[FromBitString(p.0)] == p.1
  }

  /**
   * `Deserialize for TruthTable`: the pairs are collected into a map in list
   * order, so a later pair for the same key overwrites an earlier one.
   */
  function Deserialize(pairs: seq<Pair>): (t: TruthTable)
    ensures t.entries.Keys == ListedKeys(pairs)
  {
    if pairs == [] then EmptyTable()
    else
      var last := pairs[|pairs| - 1];
      var front := pairs[..|pairs| - 1];
      KeysOfSnoc(front, last);
      assert pairs == front + [last];
      Deserialize(front).Add(FromBitString(last.0), last.1)
  }

  /** The keys a listing names, one more pair at a time. */
  function ListedKeys(pairs: seq<Pair>): set<seq<bool>>
  {
    set p | p in pairs :: FromBitString(p.0)
  }

  lemma KeysOfSnoc(front: seq<Pair>, last: Pair)
    ensures ListedKeys(front + [last]) == ListedKeys(front) + {FromBitString(last.0)}
  {
  }

  /** Deserialising pairs that each record an association of `t` agrees with `t`. */
  lemma {:induction false} DeserializeAgrees(t: TruthTable, pairs: seq<Pair>)
    requires forall p :: p in pairs ==> Records(t, p)
    ensures forall k :: k in Deserialize(pairs).entries ==> k in t.entries && Deserialize(pairs).entries[k] == t.entries[k]
  {
    if pairs != [] {
      var last := pairs[|pairs| - 1];
      var front := pairs[..|pairs| - 1];
      assert forall p :: p in front ==> p in pairs;
      DeserializeAgrees(t, front);
      assert Records(t, last);
      var d := Deserialize(pairs).entries;
      assert d == Deserialize(front).entries[FromBitString(last.0) := last.1];
    }
  }

  lemma SerializedPairsRecord(t: TruthTable, listing: seq<Pair>)
    requires forall p :: p in listing ==> p in Serialize(t)
    ensures forall p :: p in listing ==> Records(t, p)
  {
  }

  /** Every key of `t` is rebuilt from a listing of its serialised pairs. */
  lemma ListingCoversKeys(t: TruthTable, listing: seq<Pair>)
    requires forall p :: p in listing <==> p in Serialize(t)
    ensures forall k :: k in t.entries ==> k in Deserialize(listing).entries
  {
    var d := Deserialize(listing);
    forall k | k in t.entries ensures k in d.entries {
      BitStringRoundTrip(k);
      var p := (ToBitString(k), t.entries[k]);
      assert p in Serialize(t);
      assert p in listing && FromBitString(p.0) == k;
    }
  }

  /** Two tables with the same keys and the same value at every key are equal. */
  lemma SameEntries(t: TruthTable, u: TruthTable)
    requires forall k :: k in u.entries ==> k in t.entries && u.entries[k] == t.entries[k]
    requires forall k :: k in t.entries ==> k in u.entries
    ensures u == t
  {
    assert u.entries.Keys == t.entries.Keys;
    assert u.entries == t.entries;
  }

  /**
   * Round trip: listing the serialised pairs in any order (repeats allowed)
   * and deserialising rebuilds exactly the same map.
   */
  lemma SerializeRoundTrip(t: TruthTable, listing: seq<Pair>)
    requires forall p :: p in listing <==> p in Serialize(t)
    ensures Deserialize(listing) == t
  {
    SerializedPairsRecord(t, listing);
    DeserializeAgrees(t, listing);
    ListingCoversKeys(t, listing);
    SameEntries(t, Deserialize(listing));
  }

  // ---------------------------------------------------------------------
  // Input patterns enumerated by compilation
  // ---------------------------------------------------------------------

  function Pow2(n: nat): (p: nat)
    ensures p >= 1
  {
    if n == 0 then 1 else 2 * Pow2(n - 1)
  }

  /** Rust's `{:b}` formatting: binary digits without leading zeros ("0" for zero). */
  function Binary(i: nat): (s: string)
    ensures |s| >= 1
    decreases i
  {
    if i < 2 then [if i == 1 then '1' else '0']
    else Binary(i / 2) + [if i % 2 == 1 then '1' else '0']
  }

  function Zeros(n: nat): (s: string)
    ensures |s| == n && forall i :: 0 <= i < n ==> s[i] == '0'
  {
    seq(n, _ => '0')
  }

  /** `format!("{:0width$b}", i)`: binary of `i`, left-padded with '0' up to `width`. */
  function FormatBinary(i: nat, width: nat): string
  {
    var b := Binary(i);
    if |b| < width then Zeros(width - |b|) + b else b
  }

  /**
   * The input vector compilation uses for combination `i` of an `n`-input
   * component: the binary digits of `i`, most significant first, padded
   * with false up to `n` pins. `KeyFormats` shows it is the vector read back
   * from `FormatBinary(i, n)`.
   */
  function Key(i: nat, n: nat): seq<bool>
    decreases i + n
  {
    if i < 2 && n <= 1 then [i == 1]
    else Key(i / 2, if n == 0 then 0 else n - 1) + [i % 2 == 1]
  }

  /** The padded binary of `i` is that of `i / 2`, one pin narrower, followed by the last digit of `i`. */
  lemma FormatBinarySnoc(i: nat, n: nat)
    requires !(i < 2 && n <= 1)
    ensures FormatBinary(i, n) ==
      FormatBinary(i / 2, if n == 0 then 0 else n - 1) + [if i % 2 == 1 then '1' else '0']
  {
    var d := [if i % 2 == 1 then '1' else '0'];
    var n' := if n == 0 then 0 else n - 1;
    if i >= 2 {
      var b' := Binary(i / 2);
      assert Binary(i) == b' + d;
      if |b'| + 1 < n {
        assert Zeros(n - (|b'| + 1)) + (b' + d) == (Zeros(n' - |b'|) + b') + d;
      }
    } else {
      assert Binary(i) == d && Binary(0) == "0";
      if 1 < n' {
        assert Zeros(n' - 1) + "0" == Zeros(n');
      }
      assert Zeros(n - 1) + d == Zeros(n') + d;
    }
  }

  /** `Key(i, n)` is what the engine reads back from the formatted combination. */
  lemma {:induction false} KeyFormats(i: nat, n: nat)
    ensures Key(i, n) == FromBitString(FormatBinary(i, n))
    decreases i + n
  {
    if i < 2 && n <= 1 {
      assert FormatBinary(i, n) == [if i == 1 then '1' else '0'];
    } else {
      var n' := if n == 0 then 0 else n - 1;
      FormatBinarySnoc(i, n);
      KeyFormats(i / 2, n');
      FromBitStringAppend(FormatBinary(i / 2, n'), [if i % 2 == 1 then '1' else '0']);
    }
  }

  /** The number a bit vector spells, most significant bit first. */
  function ValueOf(bits: seq<bool>): nat
  {
    if bits == [] then 0
    else 2 * ValueOf(bits[..|bits| - 1]) + (if bits[|bits| - 1] then 1 else 0)
  }

  /** The keys of the first `count` combinations. */
  function KeysBelow(count: nat, n: nat): set<seq<bool>>
  {
    if count == 0 then {} else KeysBelow(count - 1, n) + {Key(count - 1, n)}
  }

  /** A key is among the first `count` exactly when one of those combinations produces it. */
  lemma {:induction false} KeysBelowMember(count: nat, n: nat, x: seq<bool>)
    ensures x in KeysBelow(count, n) <==> exists i :: 0 <= i < count && Key(i, n) == x
  {
    if count > 0 {
      KeysBelowMember(count - 1, n, x);
      if x == Key(count - 1, n) {
        assert 0 <= count - 1 < count && Key(count - 1, n) == x;
      }
    }
  }

  /** Every key that compiling an `n`-input component produces. */
  function AllKeys(n: nat): set<seq<bool>>
  {
    KeysBelow(Pow2(n), n)
  }

  /** For n >= 1, the key of combination i has n pins and spells i. */
  lemma {:induction false} KeyShape(i: nat, n: nat)
    requires n >= 1 && i < Pow2(n)
    ensures |Key(i, n)| == n
    ensures ValueOf(Key(i, n)) == i
    decreases n
  {
    if !(i < 2 && n <= 1) {
      assert n >= 2;
      KeyShape(i / 2, n - 1);
      var k := Key(i, n);
      assert k[..|k| - 1] == Key(i / 2, n - 1);
    }
  }

  /** A component with no inputs compiles under the single key [false], not []. */
  lemma ZeroInputKey()
    ensures AllKeys(0) == {[false]}
  {
    assert Key(0, 0) == [false];
    assert AllKeys(0) == KeysBelow(0, 0) + {Key(0, 0)};
  }

  lemma {:induction false} ValueOfBound(bits: seq<bool>)
    ensures ValueOf(bits) < Pow2(|bits|)
  {
    if bits != [] {
      ValueOfBound(bits[..|bits| - 1]);
    }
  }

  /** Two vectors of the same length that spell the same number are equal. */
  lemma {:induction false} ValueOfInjective(v: seq<bool>, w: seq<bool>)
    requires |v| == |w| && ValueOf(v) == ValueOf(w)
    ensures v == w
  {
    if v != [] {
      ValueOfInjective(v[..|v| - 1], w[..|w| - 1]);
      assert v == v[..|v| - 1] + [v[|v| - 1]];
      assert w == w[..|w| - 1] + [w[|w| - 1]];
    }
  }

  /** Distinct combinations get distinct keys. */
  lemma KeyInjective(i: nat, j: nat, n: nat)
    requires i < Pow2(n) && j < Pow2(n) && Key(i, n) == Key(j, n)
    ensures i == j
  {
    if n == 0 {
    } else {
      KeyShape(i, n);
      KeyShape(j, n);
    }
  }

  /** For n >= 1 the keys are exactly the boolean vectors of length n. */
  lemma AllKeysAreAllVectors(n: nat, bits: seq<bool>)
    requires n >= 1
    ensures bits in AllKeys(n) <==> |bits| == n
  {
    KeysBelowMember(Pow2(n), n, bits);
    if bits in AllKeys(n) {
      var i :| 0 <= i < Pow2(n) && Key(i, n) == bits;
      KeyShape(i, n);
    }
    if |bits| == n {
      var i := ValueOf(bits);
      ValueOfBound(bits);
      KeyShape(i, n);
      ValueOfInjective(Key(i, n), bits);
    }
  }

  /** The first `count` combinations give `count` distinct keys. */
  lemma {:induction false} KeysBelowSize(count: nat, n: nat)
    requires count <= Pow2(n)
    ensures |KeysBelow(count, n)| == count
  {
    if count > 0 {
      KeysBelowSize(count - 1, n);
      if Key(count - 1, n) in KeysBelow(count - 1, n) {
        KeysBelowMember(count - 1, n, Key(count - 1, n));
        var j :| 0 <= j < count - 1 && Key(j, n) == Key(count - 1, n);
        KeyInjective(j, count - 1, n);
      }
    }
  }

  /** Exhaustive compilation of an n-input component yields 2^n entries. */
  lemma AllKeysSize(n: nat)
    ensures |AllKeys(n)| == Pow2(n)
  {
    KeysBelowSize(Pow2(n), n);
  }
}
