/** Object key layout (kafkrs-server/src/object_store.rs), and the LIST prefix of the deletion sweep. */
module ObjectKeys {

  function Digit(d: nat): char
    requires d < 10
  {
    '0' + d as char
  }

  function Digits(n: nat): (s: string)
    ensures |s| >= 1
  {
    if n < 10 then [Digit(n)] else Digits(n / 10) + [Digit(n % 10)]
  }

  function Zeros(n: nat): (s: string)
    ensures |s| == n
  {
    seq(n, _ => '0')
  }

  function ZeroPad(s: string, width: nat): string {
    if |s| >= width then s else Zeros(width - |s|) + s
  }

  /** `{:020}` of an `i64`: the sign counts towards the width. */
  function Padded20(n: int): string {
    if n >= 0 then ZeroPad(Digits(n), 20) else "-" + ZeroPad(Digits(-n), 19)
  }

  function SegmentLeaf(base: int): string {
    "segment-" + Padded20(base) + ".parquet"
  }

  // ------------------------------------------------------------------------------------------
  // Numbers can be read back from their digits

  function Value(s: string): int {
    if s == [] then 0 else 10 * Value(s[..|s| - 1]) + (s[|s| - 1] as int - '0' as int)
  }

  lemma {:induction false} ValueOfDigits(n: nat)
    ensures Value(Digits(n)) == n
    ensures forall i :: 0 <= i < |Digits(n)| ==> '0' <= Digits(n)[i] <= '9'
  {
    if n >= 10 {
      ValueOfDigits(n / 10);
      assert Digits(n)[..|Digits(n)| - 1] == Digits(n / 10);
    }
  }

  lemma {:induction false} ValueOfZeros(k: nat, s: string)
    ensures Value(Zeros(k) + s) == Value(s)
    decreases k + |s|
  {
    if s == [] {
      if k > 0 {
        assert (Zeros(k) + s)[..k - 1] == Zeros(k - 1) + s;
        ValueOfZeros(k - 1, s);
      }
    } else {
      var init := s[..|s| - 1];
      assert (Zeros(k) + s)[..k + |s| - 1] == Zeros(k) + init;
      ValueOfZeros(k, init);
    }
  }

  lemma ValueOfPad(n: nat, width: nat)
    ensures Value(ZeroPad(Digits(n), width)) == n
    ensures ZeroPad(Digits(n), width) != [] && ZeroPad(Digits(n), width)[0] != '-'
  {
    ValueOfDigits(n);
    if |Digits(n)| < width {
      ValueOfZeros(width - |Digits(n)|, Digits(n));
    }
  }

  lemma Padded20Injective(a: int, b: int)
    requires Padded20(a) == Padded20(b)
    ensures a == b
  {
    ValueOfPad(if a >= 0 then a else -a, if a >= 0 then 20 else 19);
    ValueOfPad(if b >= 0 then b else -b, if b >= 0 then 20 else 19);
    assert Padded20(a)[1..] == Padded20(b)[1..];
  }

  lemma {:induction false} DigitsWidth(n: nat, bound: nat, width: nat)
    requires width >= 1 && n < bound && bound == Pow10(width)
    ensures |Digits(n)| <= width
    decreases width
  {
    if n >= 10 { DigitsWidth(n / 10, Pow10(width - 1), width - 1); }
  }

  function Pow10(width: nat): nat { if width == 0 then 1 else 10 * Pow10(width - 1) }

  /** The name of a segment: twenty decimal digits of its base offset, between a fixed head and tail. */
  lemma SegmentLeafFormat(base: nat) returns (digits: string)
    requires base < 0x8000_0000_0000_0000
    ensures SegmentLeaf(base) == "segment-" + digits + ".parquet"
    ensures |digits| == 20 && Value(digits) == base && forall i :: 0 <= i < 20 ==> '0' <= digits[i] <= '9'
  {
    digits := Padded20(base);
    ValueOfPad(base, 20);
    ValueOfDigits(base);
    TwentyDigits();
    DigitsWidth(base, Pow10(20), 20);
  }

  lemma TwentyDigits()
    ensures Pow10(20) == 100_000_000_000_000_000_000
  {
    assert Pow10(5) == 100_000;
    assert Pow10(10) == 10_000_000_000;
    assert Pow10(15) == 1_000_000_000_000_000;
  }

  /** No two segments of a partition share an object key. */
  lemma SegmentLeafInjective(a: int, b: int)
    requires SegmentLeaf(a) == SegmentLeaf(b)
    ensures a == b
  {
    var n := |"segment-"|;
    var x, y := Padded20(a), Padded20(b);
    assert |x| == |y|;
    assert SegmentLeaf(a)[n..n + |x|] == x;
    assert SegmentLeaf(b)[n..n + |y|] == y;
    Padded20Injective(a, b);
  }

  /** The name of a WAL file, and the base offset that recovery reads from a name. */
  function WalName(base: int): string {
    (if base >= 0 then Digits(base) else "-" + Digits(-base)) + ".wal"
  }

  function ParseBase(name: string): int {
    var stem := if |name| >= 4 then name[..|name| - 4] else name;
    if stem != [] && stem[0] == '-' then -Value(stem[1..]) else Value(stem)
  }

  /** Recovery finds under every base offset the file that the writer opened for it. */
  lemma WalNameRoundTrip(base: int)
    ensures ParseBase(WalName(base)) == base
    ensures base >= 0 ==> |WalName(base)| > 4 && Value(WalName(base)[..|WalName(base)| - 4]) == base
    ensures WalName(base)[|WalName(base)| - 4..] == ".wal"
  {
    ValueOfDigits(if base >= 0 then base else -base);
    var stem := if base >= 0 then Digits(base) else "-" + Digits(-base);
    assert WalName(base)[..|WalName(base)| - 4] == stem;
    assert base < 0 ==> stem[1..] == Digits(-base);
  }

  // ------------------------------------------------------------------------------------------
  // Paths

  /** An object path: its non-empty components. */
  type Path = seq<string>

  function Emit(word: string): Path {
    if word == [] then [] else [word]
  }

  /** Cuts a string at its slashes and drops empty components; `word` is the component being read. */
  function Split(s: string, word: string): Path {
    if s == [] then Emit(word)
    else if s[0] == '/' then Emit(word) + Split(s[1..], "")
    else Split(s[1..], word + [s[0]])
  }

  predicate SlashFree(s: string) { '/' !in s }

  predicate Component(s: string) { s != [] && SlashFree(s) }

  function TrimEndSlashes(s: string): string {
    if s != [] && s[|s| - 1] == '/' then TrimEndSlashes(s[..|s| - 1]) else s
  }

  /** The configured prefix and a slash, or nothing when no prefix is configured. */
  function Rooted(prefix: string, rest: string): string {
    if prefix == [] then rest else TrimEndSlashes(prefix) + "/" + rest
  }

  function Join(prefix: string, topic: string, uuid: string, partition: nat, leaf: string): Path {
    Split(Rooted(prefix, topic + "/" + ("v=" + uuid + "/" + ("partition=" + Digits(partition) + "/" + leaf))), "")
  }

  function SegmentKey(prefix: string, topic: string, uuid: string, partition: nat, base: int): Path {
    Join(prefix, topic, uuid, partition, SegmentLeaf(base))
  }

  function ManifestKey(prefix: string, topic: string, uuid: string, partition: nat): Path {
    Join(prefix, topic, uuid, partition, "manifest.json")
  }

  /** The prefix that the sweep lists: every key of one topic incarnation. */
  function ListPrefix(prefix: string, topic: string, uuid: string): Path {
    Split(Rooted(prefix, topic + "/" + ("v=" + uuid + "/")), "")
  }

  function Root(prefix: string): Path { Split(TrimEndSlashes(prefix), "") }

  lemma {:induction false} SplitAtSlash(a: string, b: string, word: string)
    ensures Split(a + "/" + b, word) == Split(a, word) + Split(b, "")
    decreases |a|
  {
    var s := a + "/" + b;
    if a == [] {
      assert s[1..] == b;
    } else {
      assert s[1..] == a[1..] + "/" + b;
      if a[0] == '/' {
        SplitAtSlash(a[1..], b, "");
      } else {
        SplitAtSlash(a[1..], b, word + [a[0]]);
      }
    }
  }

  lemma {:induction false} SplitWord(a: string, word: string)
    requires SlashFree(a)
    ensures Split(a, word) == Emit(word + a)
    decreases |a|
  {
    if a == [] {
      assert word + a == word;
    } else {
      SplitWord(a[1..], word + [a[0]]);
      assert word + [a[0]] + a[1..] == word + a;
    }
  }

  lemma SplitComponent(a: string, b: string)
    requires Component(a)
    ensures Split(a + "/" + b, "") == [a] + Split(b, "")
  {
    SplitAtSlash(a, b, "");
    SplitWord(a, "");
    assert "" + a == a;
  }

  lemma RootedSplit(prefix: string, rest: string)
    ensures Split(Rooted(prefix, rest), "") == Root(prefix) + Split(rest, "")
  {
    if prefix != [] {
      SplitAtSlash(TrimEndSlashes(prefix), rest, "");
    }
  }

  /** The components of every key: the root, the topic, its incarnation, the partition, the object. */
  lemma JoinComponents(prefix: string, topic: string, uuid: string, partition: nat, leaf: string)
    requires Component(topic) && SlashFree(uuid) && Component(leaf)
    ensures Join(prefix, topic, uuid, partition, leaf)
         == Root(prefix) + [topic, "v=" + uuid, "partition=" + Digits(partition), leaf]
  {
    var part := "partition=" + Digits(partition);
    ValueOfDigits(partition);
    var inner := part + "/" + leaf;
    var mid := "v=" + uuid + "/" + inner;
    RootedSplit(prefix, topic + "/" + mid);
    SplitComponent(topic, mid);
    SplitComponent("v=" + uuid, inner);
    assert SlashFree(part);
    SplitComponent(part, leaf);
    SplitWord(leaf, "");
    assert "" + leaf == leaf;
  }

  lemma ListPrefixComponents(prefix: string, topic: string, uuid: string)
    requires Component(topic) && SlashFree(uuid)
    ensures ListPrefix(prefix, topic, uuid) == Root(prefix) + [topic, "v=" + uuid]
  {
    var v := "v=" + uuid;
    assert v + "/" == v + "/" + "";
    RootedSplit(prefix, topic + "/" + (v + "/"));
    SplitComponent(topic, v + "/");
    SplitComponent(v, "");
  }

  lemma SlashFreeConcat(a: string, b: string)
    ensures SlashFree(a + b) <==> SlashFree(a) && SlashFree(b)
  {
    assert forall c :: c in a + b <==> c in a || c in b;
  }

  lemma PaddedSlashFree(base: int)
    ensures SlashFree(Padded20(base))
  {
    var n := if base >= 0 then base else -base;
    ValueOfDigits(n);
    var digits := Digits(n);
    assert SlashFree(digits);
    if |digits| < 20 { SlashFreeConcat(Zeros(20 - |digits|), digits); }
    if |digits| < 19 { SlashFreeConcat(Zeros(19 - |digits|), digits); }
    SlashFreeConcat("-", ZeroPad(digits, 19));
  }

  lemma LeavesAreComponents(base: int)
    ensures Component(SegmentLeaf(base)) && Component("manifest.json")
    ensures SegmentLeaf(base) != "manifest.json"
  {
    PaddedSlashFree(base);
    var head := "segment-" + Padded20(base);
    SlashFreeConcat("segment-", Padded20(base));
    SlashFreeConcat(head, ".parquet");
    assert SegmentLeaf(base)[0] == 's';
  }

  /** Keys of distinct incarnations, partitions or segments are distinct. */
  lemma SegmentKeyInjective(prefix: string, t1: string, u1: string, p1: nat, b1: int,
                            t2: string, u2: string, p2: nat, b2: int)
    requires Component(t1) && SlashFree(u1) && Component(t2) && SlashFree(u2)
    requires SegmentKey(prefix, t1, u1, p1, b1) == SegmentKey(prefix, t2, u2, p2, b2)
    ensures t1 == t2 && u1 == u2 && p1 == p2 && b1 == b2
  {
    LeavesAreComponents(b1);
    LeavesAreComponents(b2);
    JoinComponents(prefix, t1, u1, p1, SegmentLeaf(b1));
    JoinComponents(prefix, t2, u2, p2, SegmentLeaf(b2));
    var n := |Root(prefix)|;
    var k1, k2 := SegmentKey(prefix, t1, u1, p1, b1), SegmentKey(prefix, t2, u2, p2, b2);
    assert k1[n] == t1 && k2[n] == t2;
    assert k1[n + 1][2..] == u1 && k2[n + 1][2..] == u2;
    assert k1[n + 2][|"partition="|..] == Digits(p1) && k2[n + 2][|"partition="|..] == Digits(p2);
    ValueOfDigits(p1);
    ValueOfDigits(p2);
    assert k1[n + 3] == SegmentLeaf(b1) && k2[n + 3] == SegmentLeaf(b2);
    SegmentLeafInjective(b1, b2);
  }
}
