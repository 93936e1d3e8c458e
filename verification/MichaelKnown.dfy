/** The first two published examples of the Michael MIC (annex H.5 of IEEE 802.11i-2004). */
module MichaelKnown {
  import opened AesField
  import opened AesWords
  import opened Bytes
  import opened Michael

  /** A message that fills two words with its padding. */
  lemma TwoWords(key: seq<bv8>, t: seq<bv8>)
    requires |key| == 8 && |t| == 8
    ensures Absorbed(key, t, 2) == Mix(Mix(KeyPair(key), LeWord(t[0..4])), LeWord(t[4..8]))
  {
    hide Mix, LeWord, KeyPair;
    assert Absorbed(key, t, 0) == KeyPair(key);
    assert Absorbed(key, t, 1) == Mix(KeyPair(key), LeWord(t[0..4]));
  }

  /** The MIC of such a message from its words and the state after each. */
  lemma MicOfTwo(key: seq<bv8>, s: seq<bv8>, m0: bv32, m1: bv32, p: Pair, q: Pair)
    requires |key| == 8 && |s| <= 3
    requires var t := Padded(s); |t| == 8 && LeWord(t[0..4]) == m0 && LeWord(t[4..8]) == m1
    requires p == Mix(KeyPair(key), m0) && q == Mix(p, m1)
    ensures Mic(key, s) == LeBytes(q.l) + LeBytes(q.r)
  {
    hide Mix, LeWord, KeyPair, LeBytes, Padded, Absorbed;
    TwoWords(key, Padded(s));
  }

  lemma PadWords(c: bv8)
    ensures Padded([]) == [0x5A, 0, 0, 0, 0, 0, 0, 0]
    ensures Padded([c]) == [c, 0x5A, 0, 0, 0, 0, 0, 0]
  {
  }

  /** The empty message under the zero key. */
  lemma EmptyMic()
    ensures Mic([0, 0, 0, 0, 0, 0, 0, 0], []) == [0x82, 0x92, 0x5C, 0x1C, 0xA1, 0xD1, 0x30, 0xB8]
  {
    hide Mic, Padded;
    var key: seq<bv8> := [0, 0, 0, 0, 0, 0, 0, 0];
    PadWords(0);
    var p, q := Pair(0xC000_134D, 0xEAA1_301E), Pair(0x1C5C_9282, 0xB830_D1A1);
    assert KeyPair(key) == Pair(0, 0);
    assert Mix(Pair(0, 0), 0x5A) == p && Mix(p, 0) == q;
    MicOfTwo(key, [], 0x5A, 0, p, q);
  }

  /** The message "M" under the key that is the first MIC. */
  lemma LetterMic()
    ensures Mic([0x82, 0x92, 0x5C, 0x1C, 0xA1, 0xD1, 0x30, 0xB8], [0x4D])
            == [0x43, 0x47, 0x21, 0xCA, 0x40, 0x63, 0x9B, 0x3F]
  {
    hide Mic, Padded;
    var key: seq<bv8> := [0x82, 0x92, 0x5C, 0x1C, 0xA1, 0xD1, 0x30, 0xB8];
    PadWords(0x4D);
    var k, p, q := Pair(0x1C5C_9282, 0xB830_D1A1), Pair(0xA556_433E, 0xD6EC_7884), Pair(0xCA21_4743, 0x3F9B_6340);
    assert KeyPair(key) == k;
    assert Mix(k, 0x5A4D) == p && Mix(p, 0) == q;
    MicOfTwo(key, [0x4D], 0x5A4D, 0, p, q);
  }
}
