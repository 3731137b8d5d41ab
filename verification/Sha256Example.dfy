/** An example computed all the way through: the digest of the three bytes
    "abc", which NIST publishes with every intermediate value. It ties the
    definitions in Sha256 to numbers that were not computed with them. */
module Sha256Example {
  import opened Bytes
  import opened Sha256

  /** "abc", padded to one block. */
  const BLOCK: seq<Byte> := [0x61, 0x62, 0x63, 0x80] + Zeros(59) + [24]

  ghost predicate At(n: nat, v: Words)
    requires n <= 64
  {
    |BLOCK| == 64 && Rounds(STANDARD, H0, BLOCK, n) == v
  }

  ghost predicate Scheduled(t: nat, w: bv32)
    requires t < 64
  {
    |BLOCK| == 64 && Schedule(STANDARD, BLOCK, t) == Word(w)
  }

  ghost predicate Constant(t: nat, k: bv32)
    requires t < 64
  {
    Constants()[t] == Word(k)
  }

  lemma BlockLength()
    ensures |BLOCK| == 64
  {
  }

  lemma OneRound(n: nat, v: Words, k: bv32, w: bv32, a: bv32, e: bv32) returns (next: Words)
    requires n < 64 && At(n, v) && Scheduled(n, w) && Constant(n, k)
    requires Round(STANDARD, v, Word(k), Word(w)) == Words(Word(a), v.a, v.b, v.c, Word(e), v.e, v.f, v.g)
    ensures next == Words(Word(a), v.a, v.b, v.c, Word(e), v.e, v.f, v.g) && At(n + 1, next)
  {
    next := Round(STANDARD, v, Word(k), Word(w));
  }

  lemma OneWord(t: nat, w2: bv32, w7: bv32, w15: bv32, w16: bv32, w: bv32)
    requires 16 <= t < 64 && Scheduled(t - 2, w2) && Scheduled(t - 7, w7) && Scheduled(t - 15, w15)
    requires Scheduled(t - 16, w16) && InOrder(Spread1(w2), w7, Spread0(w15), w16) == w
    ensures Scheduled(t, w)
  {
  }

  // ---- The message schedule ----

  lemma FirstWord()
    ensures Load(0x61, 0x62, 0x63, 0x80) == Word(0x61626380)
  {
  }

  lemma Words0()
    ensures Scheduled(0, 0x61626380) && Scheduled(1, 0x00000000) && Scheduled(2, 0x00000000)
    ensures Scheduled(3, 0x00000000) && Scheduled(4, 0x00000000) && Scheduled(5, 0x00000000)
    ensures Scheduled(6, 0x00000000) && Scheduled(7, 0x00000000)
  {
    BlockLength();
    FirstWord();
    assert BLOCK[0] == 0x61 && BLOCK[1] == 0x62 && BLOCK[2] == 0x63 && BLOCK[3] == 0x80;
    assert WordAt(STANDARD, BLOCK, 0) == Load(0x61, 0x62, 0x63, 0x80);
  }

  lemma Words1()
    ensures Scheduled(8, 0x00000000) && Scheduled(9, 0x00000000) && Scheduled(10, 0x00000000)
    ensures Scheduled(11, 0x00000000) && Scheduled(12, 0x00000000) && Scheduled(13, 0x00000000)
    ensures Scheduled(14, 0x00000000) && Scheduled(15, 0x00000018)
  {
    BlockLength();
  }

  lemma Words2()
    ensures Scheduled(16, 0x61626380) && Scheduled(17, 0x000f0000) && Scheduled(18, 0x7da86405)
    ensures Scheduled(19, 0x600003c6) && Scheduled(20, 0x3e9d7b78) && Scheduled(21, 0x0183fc00)
    ensures Scheduled(22, 0x12dcbfdb) && Scheduled(23, 0xe2e2c38e)
  {
    Words0();
    Words1();
    OneWord(16, 0x00000000, 0x00000000, 0x00000000, 0x61626380, 0x61626380);
    OneWord(17, 0x00000018, 0x00000000, 0x00000000, 0x00000000, 0x000f0000);
    OneWord(18, 0x61626380, 0x00000000, 0x00000000, 0x00000000, 0x7da86405);
    OneWord(19, 0x000f0000, 0x00000000, 0x00000000, 0x00000000, 0x600003c6);
    OneWord(20, 0x7da86405, 0x00000000, 0x00000000, 0x00000000, 0x3e9d7b78);
    OneWord(21, 0x600003c6, 0x00000000, 0x00000000, 0x00000000, 0x0183fc00);
    OneWord(22, 0x3e9d7b78, 0x00000018, 0x00000000, 0x00000000, 0x12dcbfdb);
    OneWord(23, 0x0183fc00, 0x61626380, 0x00000000, 0x00000000, 0xe2e2c38e);
  }

  lemma Words3()
    ensures Scheduled(24, 0xc8215c1a) && Scheduled(25, 0xb73679a2) && Scheduled(26, 0xe5bc3909)
    ensures Scheduled(27, 0x32663c5b) && Scheduled(28, 0x9d209d67) && Scheduled(29, 0xec8726cb)
    ensures Scheduled(30, 0x702138a4) && Scheduled(31, 0xd3b7973b)
  {
    Words1();
    Words2();
    OneWord(24, 0x12dcbfdb, 0x000f0000, 0x00000000, 0x00000000, 0xc8215c1a);
    OneWord(25, 0xe2e2c38e, 0x7da86405, 0x00000000, 0x00000000, 0xb73679a2);
    OneWord(26, 0xc8215c1a, 0x600003c6, 0x00000000, 0x00000000, 0xe5bc3909);
    OneWord(27, 0xb73679a2, 0x3e9d7b78, 0x00000000, 0x00000000, 0x32663c5b);
    OneWord(28, 0xe5bc3909, 0x0183fc00, 0x00000000, 0x00000000, 0x9d209d67);
    OneWord(29, 0x32663c5b, 0x12dcbfdb, 0x00000000, 0x00000000, 0xec8726cb);
    OneWord(30, 0x9d209d67, 0xe2e2c38e, 0x00000018, 0x00000000, 0x702138a4);
    OneWord(31, 0xec8726cb, 0xc8215c1a, 0x61626380, 0x00000018, 0xd3b7973b);
  }

  lemma Words4()
    ensures Scheduled(32, 0x93f5997f) && Scheduled(33, 0x3b68ba73) && Scheduled(34, 0xaff4ffc1)
    ensures Scheduled(35, 0xf10a5c62) && Scheduled(36, 0x0a8b3996) && Scheduled(37, 0x72af830a)
    ensures Scheduled(38, 0x9409e33e) && Scheduled(39, 0x24641522)
  {
    Words2();
    Words3();
    OneWord(32, 0x702138a4, 0xb73679a2, 0x000f0000, 0x61626380, 0x93f5997f);
    OneWord(33, 0xd3b7973b, 0xe5bc3909, 0x7da86405, 0x000f0000, 0x3b68ba73);
    OneWord(34, 0x93f5997f, 0x32663c5b, 0x600003c6, 0x7da86405, 0xaff4ffc1);
    OneWord(35, 0x3b68ba73, 0x9d209d67, 0x3e9d7b78, 0x600003c6, 0xf10a5c62);
    OneWord(36, 0xaff4ffc1, 0xec8726cb, 0x0183fc00, 0x3e9d7b78, 0x0a8b3996);
    OneWord(37, 0xf10a5c62, 0x702138a4, 0x12dcbfdb, 0x0183fc00, 0x72af830a);
    OneWord(38, 0x0a8b3996, 0xd3b7973b, 0xe2e2c38e, 0x12dcbfdb, 0x9409e33e);
    OneWord(39, 0x72af830a, 0x93f5997f, 0xc8215c1a, 0xe2e2c38e, 0x24641522);
  }

  lemma Words5()
    ensures Scheduled(40, 0x9f47bf94) && Scheduled(41, 0xf0a64f5a) && Scheduled(42, 0x3e246a79)
    ensures Scheduled(43, 0x27333ba3) && Scheduled(44, 0x0c4763f2) && Scheduled(45, 0x840abf27)
    ensures Scheduled(46, 0x7a290d5d) && Scheduled(47, 0x065c43da)
  {
    Words3();
    Words4();
    OneWord(40, 0x9409e33e, 0x3b68ba73, 0xb73679a2, 0xc8215c1a, 0x9f47bf94);
    OneWord(41, 0x24641522, 0xaff4ffc1, 0xe5bc3909, 0xb73679a2, 0xf0a64f5a);
    OneWord(42, 0x9f47bf94, 0xf10a5c62, 0x32663c5b, 0xe5bc3909, 0x3e246a79);
    OneWord(43, 0xf0a64f5a, 0x0a8b3996, 0x9d209d67, 0x32663c5b, 0x27333ba3);
    OneWord(44, 0x3e246a79, 0x72af830a, 0xec8726cb, 0x9d209d67, 0x0c4763f2);
    OneWord(45, 0x27333ba3, 0x9409e33e, 0x702138a4, 0xec8726cb, 0x840abf27);
    OneWord(46, 0x0c4763f2, 0x24641522, 0xd3b7973b, 0x702138a4, 0x7a290d5d);
    OneWord(47, 0x840abf27, 0x9f47bf94, 0x93f5997f, 0xd3b7973b, 0x065c43da);
  }

  lemma Words6()
    ensures Scheduled(48, 0xfb3e89cb) && Scheduled(49, 0xcc7617db) && Scheduled(50, 0xb9e66c34)
    ensures Scheduled(51, 0xa9993667) && Scheduled(52, 0x84badedd) && Scheduled(53, 0xc21462bc)
    ensures Scheduled(54, 0x1487472c) && Scheduled(55, 0xb20f7a99)
  {
    Words4();
    Words5();
    OneWord(48, 0x7a290d5d, 0xf0a64f5a, 0x3b68ba73, 0x93f5997f, 0xfb3e89cb);
    OneWord(49, 0x065c43da, 0x3e246a79, 0xaff4ffc1, 0x3b68ba73, 0xcc7617db);
    OneWord(50, 0xfb3e89cb, 0x27333ba3, 0xf10a5c62, 0xaff4ffc1, 0xb9e66c34);
    OneWord(51, 0xcc7617db, 0x0c4763f2, 0x0a8b3996, 0xf10a5c62, 0xa9993667);
    OneWord(52, 0xb9e66c34, 0x840abf27, 0x72af830a, 0x0a8b3996, 0x84badedd);
    OneWord(53, 0xa9993667, 0x7a290d5d, 0x9409e33e, 0x72af830a, 0xc21462bc);
    OneWord(54, 0x84badedd, 0x065c43da, 0x24641522, 0x9409e33e, 0x1487472c);
    OneWord(55, 0xc21462bc, 0xfb3e89cb, 0x9f47bf94, 0x24641522, 0xb20f7a99);
  }

  lemma Words7()
    ensures Scheduled(56, 0xef57b9cd) && Scheduled(57, 0xebe6b238) && Scheduled(58, 0x9fe3095e)
    ensures Scheduled(59, 0x78bc8d4b) && Scheduled(60, 0xa43fcf15) && Scheduled(61, 0x668b2ff8)
    ensures Scheduled(62, 0xeeaba2cc) && Scheduled(63, 0x12b1edeb)
  {
    Words5();
    Words6();
    OneWord(56, 0x1487472c, 0xcc7617db, 0xf0a64f5a, 0x9f47bf94, 0xef57b9cd);
    OneWord(57, 0xb20f7a99, 0xb9e66c34, 0x3e246a79, 0xf0a64f5a, 0xebe6b238);
    OneWord(58, 0xef57b9cd, 0xa9993667, 0x27333ba3, 0x3e246a79, 0x9fe3095e);
    OneWord(59, 0xebe6b238, 0x84badedd, 0x0c4763f2, 0x27333ba3, 0x78bc8d4b);
    OneWord(60, 0x9fe3095e, 0xc21462bc, 0x840abf27, 0x0c4763f2, 0xa43fcf15);
    OneWord(61, 0x78bc8d4b, 0x1487472c, 0x7a290d5d, 0x840abf27, 0x668b2ff8);
    OneWord(62, 0xa43fcf15, 0xb20f7a99, 0x065c43da, 0x7a290d5d, 0xeeaba2cc);
    OneWord(63, 0x668b2ff8, 0xef57b9cd, 0xfb3e89cb, 0x065c43da, 0x12b1edeb);
  }

  lemma Constants0()
    ensures Constant(0, 0x428a2f98) && Constant(1, 0x71374491) && Constant(2, 0xb5c0fbcf)
    ensures Constant(3, 0xe9b5dba5) && Constant(4, 0x3956c25b) && Constant(5, 0x59f111f1)
    ensures Constant(6, 0x923f82a4) && Constant(7, 0xab1c5ed5)
  {
  }

  lemma Constants1()
    ensures Constant(8, 0xd807aa98) && Constant(9, 0x12835b01) && Constant(10, 0x243185be)
    ensures Constant(11, 0x550c7dc3) && Constant(12, 0x72be5d74) && Constant(13, 0x80deb1fe)
    ensures Constant(14, 0x9bdc06a7) && Constant(15, 0xc19bf174)
  {
  }

  lemma Constants2()
    ensures Constant(16, 0xe49b69c1) && Constant(17, 0xefbe4786) && Constant(18, 0x0fc19dc6)
    ensures Constant(19, 0x240ca1cc) && Constant(20, 0x2de92c6f) && Constant(21, 0x4a7484aa)
    ensures Constant(22, 0x5cb0a9dc) && Constant(23, 0x76f988da)
  {
  }

  lemma Constants3()
    ensures Constant(24, 0x983e5152) && Constant(25, 0xa831c66d) && Constant(26, 0xb00327c8)
    ensures Constant(27, 0xbf597fc7) && Constant(28, 0xc6e00bf3) && Constant(29, 0xd5a79147)
    ensures Constant(30, 0x06ca6351) && Constant(31, 0x14292967)
  {
  }

  lemma Constants4()
    ensures Constant(32, 0x27b70a85) && Constant(33, 0x2e1b2138) && Constant(34, 0x4d2c6dfc)
    ensures Constant(35, 0x53380d13) && Constant(36, 0x650a7354) && Constant(37, 0x766a0abb)
    ensures Constant(38, 0x81c2c92e) && Constant(39, 0x92722c85)
  {
  }

  lemma Constants5()
    ensures Constant(40, 0xa2bfe8a1) && Constant(41, 0xa81a664b) && Constant(42, 0xc24b8b70)
    ensures Constant(43, 0xc76c51a3) && Constant(44, 0xd192e819) && Constant(45, 0xd6990624)
    ensures Constant(46, 0xf40e3585) && Constant(47, 0x106aa070)
  {
  }

  lemma Constants6()
    ensures Constant(48, 0x19a4c116) && Constant(49, 0x1e376c08) && Constant(50, 0x2748774c)
    ensures Constant(51, 0x34b0bcb5) && Constant(52, 0x391c0cb3) && Constant(53, 0x4ed8aa4a)
    ensures Constant(54, 0x5b9cca4f) && Constant(55, 0x682e6ff3)
  {
  }

  lemma Constants7()
    ensures Constant(56, 0x748f82ee) && Constant(57, 0x78a5636f) && Constant(58, 0x84c87814)
    ensures Constant(59, 0x8cc70208) && Constant(60, 0x90befffa) && Constant(61, 0xa4506ceb)
    ensures Constant(62, 0xbef9a3f7) && Constant(63, 0xc67178f2)
  {
  }

  // ---- The rounds, and the variables after each eight of them ----

  lemma Row0() returns (last: Words)
    ensures At(8, last)
    ensures last == Words(Word(0x85a07b5f), Word(0xe5030380), Word(0x2b4209f5), Word(0x04409a6a),
                          Word(0x0c657a79), Word(0x9b27a401), Word(0x714260ad), Word(0x43ada245))
  {
    BlockLength();
    var v := H0;
    Words0();
    Constants0();
    var v1 := OneRound(0, v, 0x428a2f98, 0x61626380, 0x5d6aebcd, 0xfa2a4622);
    var v2 := OneRound(1, v1, 0x71374491, 0x00000000, 0x5a6ad9ad, 0x78ce7989);
    var v3 := OneRound(2, v2, 0xb5c0fbcf, 0x00000000, 0xc8c347a7, 0xf92939eb);
    var v4 := OneRound(3, v3, 0xe9b5dba5, 0x00000000, 0xd550f666, 0x24e00850);
    var v5 := OneRound(4, v4, 0x3956c25b, 0x00000000, 0x04409a6a, 0x43ada245);
    var v6 := OneRound(5, v5, 0x59f111f1, 0x00000000, 0x2b4209f5, 0x714260ad);
    var v7 := OneRound(6, v6, 0x923f82a4, 0x00000000, 0xe5030380, 0x9b27a401);
    last := OneRound(7, v7, 0xab1c5ed5, 0x00000000, 0x85a07b5f, 0x0c657a79);
  }

  lemma Row1() returns (last: Words)
    ensures At(16, last)
    ensures last == Words(Word(0xb0fa238e), Word(0xc0645fde), Word(0xd932eb16), Word(0x87912990),
                          Word(0x07590dcd), Word(0x0b92f20c), Word(0x745a48de), Word(0x1e578218))
  {
    var v := Row0();
    Words1();
    Constants1();
    var v1 := OneRound(8, v, 0xd807aa98, 0x00000000, 0x8e04ecb9, 0x32ca2d8c);
    var v2 := OneRound(9, v1, 0x12835b01, 0x00000000, 0x8c87346b, 0x1cc92596);
    var v3 := OneRound(10, v2, 0x243185be, 0x00000000, 0x4798a3f4, 0x436b23e8);
    var v4 := OneRound(11, v3, 0x550c7dc3, 0x00000000, 0xf71fc5a9, 0x816fd6e9);
    var v5 := OneRound(12, v4, 0x72be5d74, 0x00000000, 0x87912990, 0x1e578218);
    var v6 := OneRound(13, v5, 0x80deb1fe, 0x00000000, 0xd932eb16, 0x745a48de);
    var v7 := OneRound(14, v6, 0x9bdc06a7, 0x00000000, 0xc0645fde, 0x0b92f20c);
    last := OneRound(15, v7, 0xc19bf174, 0x00000018, 0xb0fa238e, 0x07590dcd);
  }

  lemma Row2() returns (last: Words)
    ensures At(24, last)
    ensures last == Words(Word(0xc5d53d8d), Word(0xa7a3623f), Word(0xc2606d6d), Word(0x9dc68b63),
                          Word(0xaa47c347), Word(0x49f5114a), Word(0xe1257970), Word(0x8ada8930))
  {
    var v := Row1();
    Words2();
    Constants2();
    var v1 := OneRound(16, v, 0xe49b69c1, 0x61626380, 0x21da9a9b, 0x8034229c);
    var v2 := OneRound(17, v1, 0xefbe4786, 0x000f0000, 0xc2fbd9d1, 0x846ee454);
    var v3 := OneRound(18, v2, 0x0fc19dc6, 0x7da86405, 0xfe777bbf, 0xcc899961);
    var v4 := OneRound(19, v3, 0x240ca1cc, 0x600003c6, 0xe1f20c33, 0xb0638179);
    var v5 := OneRound(20, v4, 0x2de92c6f, 0x3e9d7b78, 0x9dc68b63, 0x8ada8930);
    var v6 := OneRound(21, v5, 0x4a7484aa, 0x0183fc00, 0xc2606d6d, 0xe1257970);
    var v7 := OneRound(22, v6, 0x5cb0a9dc, 0x12dcbfdb, 0xa7a3623f, 0x49f5114a);
    last := OneRound(23, v7, 0x76f988da, 0xe2e2c38e, 0xc5d53d8d, 0xaa47c347);
  }

  lemma Row3() returns (last: Words)
    ensures At(32, last)
    ensures last == Words(Word(0x73b33bf5), Word(0xea992a22), Word(0xa0060b30), Word(0x363482c9),
                          Word(0xba591112), Word(0x0109ab3a), Word(0xade79437), Word(0x6112a3b7))
  {
    var v := Row2();
    Words3();
    Constants3();
    var v1 := OneRound(24, v, 0x983e5152, 0xc8215c1a, 0x1c2c2838, 0x2823ef91);
    var v2 := OneRound(25, v1, 0xa831c66d, 0xb73679a2, 0xcde8037d, 0x14383d8e);
    var v3 := OneRound(26, v2, 0xb00327c8, 0xe5bc3909, 0xb62ec4bc, 0xc74c6516);
    var v4 := OneRound(27, v3, 0xbf597fc7, 0x32663c5b, 0x77d37528, 0xedffbff8);
    var v5 := OneRound(28, v4, 0xc6e00bf3, 0x9d209d67, 0x363482c9, 0x6112a3b7);
    var v6 := OneRound(29, v5, 0xd5a79147, 0xec8726cb, 0xa0060b30, 0xade79437);
    var v7 := OneRound(30, v6, 0x06ca6351, 0x702138a4, 0xea992a22, 0x0109ab3a);
    last := OneRound(31, v7, 0x14292967, 0xd3b7973b, 0x73b33bf5, 0xba591112);
  }

  lemma Row4() returns (last: Words)
    ensures At(40, last)
    ensures last == Words(Word(0x79ea687a), Word(0x6dc57a8a), Word(0x34df1604), Word(0x41a65cb1),
                          Word(0x1efbc0a0), Word(0xf0781bc8), Word(0xa507a53d), Word(0x0772a26b))
  {
    var v := Row3();
    Words4();
    Constants4();
    var v1 := OneRound(32, v, 0x27b70a85, 0x93f5997f, 0x98e12507, 0x9cd9f5f6);
    var v2 := OneRound(33, v1, 0x2e1b2138, 0x3b68ba73, 0xfe604df5, 0x59249dd3);
    var v3 := OneRound(34, v2, 0x4d2c6dfc, 0xaff4ffc1, 0xa9a7738c, 0x085f3833);
    var v4 := OneRound(35, v3, 0x53380d13, 0xf10a5c62, 0x65a0cfe4, 0xf4b002d6);
    var v5 := OneRound(36, v4, 0x650a7354, 0x0a8b3996, 0x41a65cb1, 0x0772a26b);
    var v6 := OneRound(37, v5, 0x766a0abb, 0x72af830a, 0x34df1604, 0xa507a53d);
    var v7 := OneRound(38, v6, 0x81c2c92e, 0x9409e33e, 0x6dc57a8a, 0xf0781bc8);
    last := OneRound(39, v7, 0x92722c85, 0x24641522, 0x79ea687a, 0x1efbc0a0);
  }

  lemma Row5() returns (last: Words)
    ensures At(48, last)
    ensures last == Words(Word(0x4172328d), Word(0xa14c14b0), Word(0x72ab4b91), Word(0x26628815),
                          Word(0xfecf0bc6), Word(0xd57b94a9), Word(0xb7755da1), Word(0xa80f11f0))
  {
    var v := Row4();
    Words5();
    Constants5();
    var v1 := OneRound(40, v, 0xa2bfe8a1, 0x9f47bf94, 0xd6670766, 0x26352d63);
    var v2 := OneRound(41, v1, 0xa81a664b, 0xf0a64f5a, 0xdf46652f, 0x838b2711);
    var v3 := OneRound(42, v2, 0xc24b8b70, 0x3e246a79, 0x17aa0dfe, 0xdecd4715);
    var v4 := OneRound(43, v3, 0xc76c51a3, 0x27333ba3, 0x9d4baf93, 0xfda24c2e);
    var v5 := OneRound(44, v4, 0xd192e819, 0x0c4763f2, 0x26628815, 0xa80f11f0);
    var v6 := OneRound(45, v5, 0xd6990624, 0x840abf27, 0x72ab4b91, 0xb7755da1);
    var v7 := OneRound(46, v6, 0xf40e3585, 0x7a290d5d, 0xa14c14b0, 0xd57b94a9);
    last := OneRound(47, v7, 0x106aa070, 0x065c43da, 0x4172328d, 0xfecf0bc6);
  }

  lemma Row6() returns (last: Words)
    ensures At(56, last)
    ensures last == Words(Word(0x38cc9913), Word(0x3ec45cdb), Word(0xf5702fdb), Word(0x101fd28f),
                          Word(0x54cb266b), Word(0xe50e1b4f), Word(0x9f4787c3), Word(0x529e7d00))
  {
    var v := Row5();
    Words6();
    Constants6();
    var v1 := OneRound(48, v, 0x19a4c116, 0xfb3e89cb, 0x05757ceb, 0xbd714038);
    var v2 := OneRound(49, v1, 0x1e376c08, 0xcc7617db, 0xf11bfaa8, 0x6e5c390c);
    var v3 := OneRound(50, v2, 0x2748774c, 0xb9e66c34, 0x7a0508a1, 0x52f1ccf7);
    var v4 := OneRound(51, v3, 0x34b0bcb5, 0xa9993667, 0x886e7a22, 0x49231c1e);
    var v5 := OneRound(52, v4, 0x391c0cb3, 0x84badedd, 0x101fd28f, 0x529e7d00);
    var v6 := OneRound(53, v5, 0x4ed8aa4a, 0xc21462bc, 0xf5702fdb, 0x9f4787c3);
    var v7 := OneRound(54, v6, 0x5b9cca4f, 0x1487472c, 0x3ec45cdb, 0xe50e1b4f);
    last := OneRound(55, v7, 0x682e6ff3, 0xb20f7a99, 0x38cc9913, 0x54cb266b);
  }

  lemma Row7() returns (last: Words)
    ensures At(64, last)
    ensures last == Words(Word(0x506e3058), Word(0xd39a2165), Word(0x04d24d6c), Word(0xb85e2ce9),
                          Word(0x5ef50f24), Word(0xfb121210), Word(0x948d25b6), Word(0x961f4894))
  {
    var v := Row6();
    Words7();
    Constants7();
    var v1 := OneRound(56, v, 0x748f82ee, 0xef57b9cd, 0xfcd1887b, 0x9b5e906c);
    var v2 := OneRound(57, v1, 0x78a5636f, 0xebe6b238, 0xc062d46f, 0x7e44008e);
    var v3 := OneRound(58, v2, 0x84c87814, 0x9fe3095e, 0xffb70472, 0x6d83bfc6);
    var v4 := OneRound(59, v3, 0x8cc70208, 0x78bc8d4b, 0xb6ae8fff, 0xb21bad3d);
    var v5 := OneRound(60, v4, 0x90befffa, 0xa43fcf15, 0xb85e2ce9, 0x961f4894);
    var v6 := OneRound(61, v5, 0xa4506ceb, 0x668b2ff8, 0x04d24d6c, 0x948d25b6);
    var v7 := OneRound(62, v6, 0xbef9a3f7, 0xeeaba2cc, 0xd39a2165, 0xfb121210);
    last := OneRound(63, v7, 0xc67178f2, 0x12b1edeb, 0x506e3058, 0x5ef50f24);
  }

  lemma OneBlock()
    ensures Padded([0x61, 0x62, 0x63]) == BLOCK && |BLOCK| == 64
  {
    BlockLength();
    assert Be(8, 24) == Zeros(7) + [24];
    assert Padded([0x61, 0x62, 0x63]) == [0x61, 0x62, 0x63] + [0x80] + Zeros(52) + Be(8, 24);
  }

  /** The published digest. */
  lemma DigestOfAbc()
    ensures Digest(STANDARD, [0x61, 0x62, 0x63]) ==
            Words(Word(0xba7816bf), Word(0x8f01cfea), Word(0x414140de), Word(0x5dae2223),
                  Word(0xb00361a3), Word(0x96177a9c), Word(0xb410ff61), Word(0xf20015ad))
  {
    OneBlock();
    var last := Row7();
    assert BLOCK[0..64] == BLOCK;
    assert HashBlocks(STANDARD, BLOCK, 0) == H0;
    assert Digest(STANDARD, [0x61, 0x62, 0x63]) == Compress(STANDARD, H0, BLOCK) == AddWords(STANDARD, H0, last);
  }
}
