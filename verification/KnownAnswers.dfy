/** Published answers of SHA-256 and HMAC from the words up: "abc" of FIPS 180-4 and test case 1 of RFC 4231. */
module KnownAnswers {
  import opened Bytes
  import opened SecureHash
  import opened KeyDerivation
  import opened HashSteps

  // --- The round constants, eight at a time ------------------------------------------------

  const K_0: seq<word> :=
    [0x428A2F98, 0x71374491, 0xB5C0FBCF, 0xE9B5DBA5, 0x3956C25B, 0x59F111F1, 0x923F82A4, 0xAB1C5ED5]
  const K_8: seq<word> :=
    [0xD807AA98, 0x12835B01, 0x243185BE, 0x550C7DC3, 0x72BE5D74, 0x80DEB1FE, 0x9BDC06A7, 0xC19BF174]
  const K_16: seq<word> :=
    [0xE49B69C1, 0xEFBE4786, 0x0FC19DC6, 0x240CA1CC, 0x2DE92C6F, 0x4A7484AA, 0x5CB0A9DC, 0x76F988DA]
  const K_24: seq<word> :=
    [0x983E5152, 0xA831C66D, 0xB00327C8, 0xBF597FC7, 0xC6E00BF3, 0xD5A79147, 0x06CA6351, 0x14292967]
  const K_32: seq<word> :=
    [0x27B70A85, 0x2E1B2138, 0x4D2C6DFC, 0x53380D13, 0x650A7354, 0x766A0ABB, 0x81C2C92E, 0x92722C85]
  const K_40: seq<word> :=
    [0xA2BFE8A1, 0xA81A664B, 0xC24B8B70, 0xC76C51A3, 0xD192E819, 0xD6990624, 0xF40E3585, 0x106AA070]
  const K_48: seq<word> :=
    [0x19A4C116, 0x1E376C08, 0x2748774C, 0x34B0BCB5, 0x391C0CB3, 0x4ED8AA4A, 0x5B9CCA4F, 0x682E6FF3]
  const K_56: seq<word> :=
    [0x748F82EE, 0x78A5636F, 0x84C87814, 0x8CC70208, 0x90BEFFFA, 0xA4506CEB, 0xBEF9A3F7, 0xC67178F2]

  lemma Constants()
    ensures ROUND_CONSTANTS[0..8] == K_0 && ROUND_CONSTANTS[8..16] == K_8
    ensures ROUND_CONSTANTS[16..24] == K_16 && ROUND_CONSTANTS[24..32] == K_24
    ensures ROUND_CONSTANTS[32..40] == K_32 && ROUND_CONSTANTS[40..48] == K_40
    ensures ROUND_CONSTANTS[48..56] == K_48 && ROUND_CONSTANTS[56..64] == K_56
  {
    assert ROUND_CONSTANTS[0..8] == WORDS_0[..8] && ROUND_CONSTANTS[8..16] == WORDS_0[8..];
    assert ROUND_CONSTANTS[16..24] == WORDS_16[..8] && ROUND_CONSTANTS[24..32] == WORDS_16[8..];
    assert ROUND_CONSTANTS[32..40] == WORDS_32[..8] && ROUND_CONSTANTS[40..48] == WORDS_32[8..];
    assert ROUND_CONSTANTS[48..56] == WORDS_48[..8] && ROUND_CONSTANTS[56..64] == WORDS_48[8..];
  }

  // --- The block of "abc" ----------------------------------------------------------------------

  const ABC_0: seq<word> :=
    [0x61626380, 0x00000000, 0x00000000, 0x00000000, 0x00000000, 0x00000000, 0x00000000, 0x00000000]
  const ABC_8: seq<word> :=
    [0x00000000, 0x00000000, 0x00000000, 0x00000000, 0x00000000, 0x00000000, 0x00000000, 0x00000018]
  const ABC_16: seq<word> :=
    [0x61626380, 0x000F0000, 0x7DA86405, 0x600003C6, 0x3E9D7B78, 0x0183FC00, 0x12DCBFDB, 0xE2E2C38E]
  const ABC_24: seq<word> :=
    [0xC8215C1A, 0xB73679A2, 0xE5BC3909, 0x32663C5B, 0x9D209D67, 0xEC8726CB, 0x702138A4, 0xD3B7973B]
  const ABC_32: seq<word> :=
    [0x93F5997F, 0x3B68BA73, 0xAFF4FFC1, 0xF10A5C62, 0x0A8B3996, 0x72AF830A, 0x9409E33E, 0x24641522]
  const ABC_40: seq<word> :=
    [0x9F47BF94, 0xF0A64F5A, 0x3E246A79, 0x27333BA3, 0x0C4763F2, 0x840ABF27, 0x7A290D5D, 0x065C43DA]
  const ABC_48: seq<word> :=
    [0xFB3E89CB, 0xCC7617DB, 0xB9E66C34, 0xA9993667, 0x84BADEDD, 0xC21462BC, 0x1487472C, 0xB20F7A99]
  const ABC_56: seq<word> :=
    [0xEF57B9CD, 0xEBE6B238, 0x9FE3095E, 0x78BC8D4B, 0xA43FCF15, 0x668B2FF8, 0xEEABA2CC, 0x12B1EDEB]

  const ABC_AT_8 :=
    Working(0x85A07B5F, 0xE5030380, 0x2B4209F5, 0x04409A6A, 0x0C657A79, 0x9B27A401, 0x714260AD, 0x43ADA245)
  const ABC_AT_16 :=
    Working(0xB0FA238E, 0xC0645FDE, 0xD932EB16, 0x87912990, 0x07590DCD, 0x0B92F20C, 0x745A48DE, 0x1E578218)
  const ABC_AT_24 :=
    Working(0xC5D53D8D, 0xA7A3623F, 0xC2606D6D, 0x9DC68B63, 0xAA47C347, 0x49F5114A, 0xE1257970, 0x8ADA8930)
  const ABC_AT_32 :=
    Working(0x73B33BF5, 0xEA992A22, 0xA0060B30, 0x363482C9, 0xBA591112, 0x0109AB3A, 0xADE79437, 0x6112A3B7)
  const ABC_AT_40 :=
    Working(0x79EA687A, 0x6DC57A8A, 0x34DF1604, 0x41A65CB1, 0x1EFBC0A0, 0xF0781BC8, 0xA507A53D, 0x0772A26B)
  const ABC_AT_48 :=
    Working(0x4172328D, 0xA14C14B0, 0x72AB4B91, 0x26628815, 0xFECF0BC6, 0xD57B94A9, 0xB7755DA1, 0xA80F11F0)
  const ABC_AT_56 :=
    Working(0x38CC9913, 0x3EC45CDB, 0xF5702FDB, 0x101FD28F, 0x54CB266B, 0xE50E1B4F, 0x9F4787C3, 0x529E7D00)
  const ABC_AT_64 :=
    Working(0x506E3058, 0xD39A2165, 0x04D24D6C, 0xB85E2CE9, 0x5EF50F24, 0xFB121210, 0x948D25B6, 0x961F4894)

  lemma AbcWords()
    ensures LeadsOn(Extend, ABC_0, ABC_8, ABC_16) && LeadsOn(Extend, ABC_8, ABC_16, ABC_24)
    ensures LeadsOn(Extend, ABC_16, ABC_24, ABC_32) && LeadsOn(Extend, ABC_24, ABC_32, ABC_40)
    ensures LeadsOn(Extend, ABC_32, ABC_40, ABC_48) && LeadsOn(Extend, ABC_40, ABC_48, ABC_56)
  {
    EightWordsLeadOn(Extend, ABC_0, ABC_8, ABC_16);
    EightWordsLeadOn(Extend, ABC_8, ABC_16, ABC_24);
    EightWordsLeadOn(Extend, ABC_16, ABC_24, ABC_32);
    EightWordsLeadOn(Extend, ABC_24, ABC_32, ABC_40);
    EightWordsLeadOn(Extend, ABC_32, ABC_40, ABC_48);
    EightWordsLeadOn(Extend, ABC_40, ABC_48, ABC_56);
  }

  lemma AbcSteps32()
    ensures Leads(Round, INITIAL_HASH, K_0, ABC_0, ABC_AT_8)
    ensures Leads(Round, ABC_AT_8, K_8, ABC_8, ABC_AT_16)
    ensures Leads(Round, ABC_AT_16, K_16, ABC_16, ABC_AT_24)
    ensures Leads(Round, ABC_AT_24, K_24, ABC_24, ABC_AT_32)
  {
    EightStepsLead(Round, INITIAL_HASH, K_0, ABC_0, ABC_AT_8);
    EightStepsLead(Round, ABC_AT_8, K_8, ABC_8, ABC_AT_16);
    EightStepsLead(Round, ABC_AT_16, K_16, ABC_16, ABC_AT_24);
    EightStepsLead(Round, ABC_AT_24, K_24, ABC_24, ABC_AT_32);
  }

  lemma AbcSteps64()
    ensures Leads(Round, ABC_AT_32, K_32, ABC_32, ABC_AT_40)
    ensures Leads(Round, ABC_AT_40, K_40, ABC_40, ABC_AT_48)
    ensures Leads(Round, ABC_AT_48, K_48, ABC_48, ABC_AT_56)
    ensures Leads(Round, ABC_AT_56, K_56, ABC_56, ABC_AT_64)
  {
    EightStepsLead(Round, ABC_AT_32, K_32, ABC_32, ABC_AT_40);
    EightStepsLead(Round, ABC_AT_40, K_40, ABC_40, ABC_AT_48);
    EightStepsLead(Round, ABC_AT_48, K_48, ABC_48, ABC_AT_56);
    EightStepsLead(Round, ABC_AT_56, K_56, ABC_56, ABC_AT_64);
  }

  lemma AbcRounds32(h: Working, block: Bytes, t: nat)
    requires |block| == BLOCK_BYTES && t == 0 && Row(block, t, ABC_0) && Row(block, t + 8, ABC_8)
    requires Row(block, t + 16, ABC_16) && Row(block, t + 24, ABC_24)
    requires RoundsTo(h, block, t) == INITIAL_HASH
    ensures RoundsTo(h, block, t + 32) == ABC_AT_32
  {
    Constants();
    AbcSteps32();
    NextRounds(h, block, t, INITIAL_HASH, K_0, ABC_0, ABC_AT_8);
    NextRounds(h, block, t + 8, ABC_AT_8, K_8, ABC_8, ABC_AT_16);
    NextRounds(h, block, t + 16, ABC_AT_16, K_16, ABC_16, ABC_AT_24);
    NextRounds(h, block, t + 24, ABC_AT_24, K_24, ABC_24, ABC_AT_32);
  }

  lemma AbcRounds64(h: Working, block: Bytes, t: nat)
    requires |block| == BLOCK_BYTES && t == 32 && Row(block, t, ABC_32) && Row(block, t + 8, ABC_40)
    requires Row(block, t + 16, ABC_48) && Row(block, t + 24, ABC_56)
    requires RoundsTo(h, block, t) == ABC_AT_32
    ensures RoundsTo(h, block, t + 32) == ABC_AT_64
  {
    Constants();
    AbcSteps64();
    NextRounds(h, block, t, ABC_AT_32, K_32, ABC_32, ABC_AT_40);
    NextRounds(h, block, t + 8, ABC_AT_40, K_40, ABC_40, ABC_AT_48);
    NextRounds(h, block, t + 16, ABC_AT_48, K_48, ABC_48, ABC_AT_56);
    NextRounds(h, block, t + 24, ABC_AT_56, K_56, ABC_56, ABC_AT_64);
  }

  lemma AbcRows(block: Bytes)
    requires |block| == BLOCK_BYTES && Row(block, 0, ABC_0) && Row(block, 8, ABC_8)
    ensures Row(block, 16, ABC_16) && Row(block, 24, ABC_24) && Row(block, 32, ABC_32) && Row(block, 40, ABC_40)
    ensures Row(block, 48, ABC_48) && Row(block, 56, ABC_56)
  {
    AbcWords();
    NextRow(block, 0, ABC_0, ABC_8, ABC_16);
    NextRow(block, 8, ABC_8, ABC_16, ABC_24);
    NextRow(block, 16, ABC_16, ABC_24, ABC_32);
    NextRow(block, 24, ABC_24, ABC_32, ABC_40);
    NextRow(block, 32, ABC_32, ABC_40, ABC_48);
    NextRow(block, 40, ABC_40, ABC_48, ABC_56);
  }

  const ABC_HASH :=
    Working(0xBA7816BF, 0x8F01CFEA, 0x414140DE, 0x5DAE2223, 0xB00361A3, 0x96177A9C, 0xB410FF61, 0xF20015AD)

  lemma AbcBlock(block: Bytes, h: Working)
    requires |block| == BLOCK_BYTES && Row(block, 0, ABC_0) && Row(block, 8, ABC_8) && h == INITIAL_HASH
    ensures Compress(h, block) == ABC_HASH
  {
    AbcRows(block);
    AbcRounds32(h, block, 0);
    AbcRounds64(h, block, 32);
    AbcSum();
  }

  lemma AbcSum()
    ensures ABC_AT_64.Plus(INITIAL_HASH) == ABC_HASH
  {
  }

  // --- The key block with the inner pad --------------------------------------------------------

  const IPAD_0: seq<word> :=
    [0x3D3D3D3D, 0x3D3D3D3D, 0x3D3D3D3D, 0x3D3D3D3D, 0x3D3D3D3D, 0x36363636, 0x36363636, 0x36363636]
  const IPAD_8: seq<word> :=
    [0x36363636, 0x36363636, 0x36363636, 0x36363636, 0x36363636, 0x36363636, 0x36363636, 0x36363636]
  const IPAD_16: seq<word> :=
    [0x83D65655, 0x83D65655, 0x87C68A09, 0x87C68A09, 0xEEFE9D53, 0xE7F7964C, 0xF0CBC89A, 0xDB09C692]
  const IPAD_24: seq<word> :=
    [0x3E95C840, 0x80D1DBFA, 0x024BA550, 0xE2FE1EB4, 0xAB57872E, 0xDADD789E, 0x2BBF790F, 0xB71E0674]
  const IPAD_32: seq<word> :=
    [0x873CD858, 0xEB704436, 0x034082B0, 0x7B1C5B2D, 0x7B8D0BF1, 0x94833806, 0x1BF5DEA0, 0x532CF446]
  const IPAD_40: seq<word> :=
    [0x126E3965, 0xB1EB6AEA, 0x4B39B8C5, 0xE08793F5, 0xA40D251E, 0xF7F32031, 0x3302C428, 0x55AF3D1C]
  const IPAD_48: seq<word> :=
    [0xD57B7564, 0xF0A55A2B, 0xFB52B288, 0xD51114E5, 0x5464A6E1, 0xA5426731, 0xF53108FE, 0xEE307FFF]
  const IPAD_56: seq<word> :=
    [0xC25593FE, 0xCB39BADA, 0xAF277F26, 0x7F7F4555, 0x4EC9D7B1, 0x1E504A7D, 0xEFCA2DA1, 0x52D83722]

  const IPAD_AT_8 :=
    Working(0x1A5A8C04, 0xC6A488E5, 0xB8400306, 0xBA938604, 0xCBC23CD3, 0x2F80792B, 0x72A6DC02, 0x3E1A087F)
  const IPAD_AT_16 :=
    Working(0x3CB5EEA0, 0xE7BBDB4A, 0x1C4EE0BB, 0x30CF6137, 0xCD45C4DE, 0x9EF1AA08, 0x5E2BC040, 0x0A66E9A1)
  const IPAD_AT_24 :=
    Working(0x34BAE976, 0xC6904C45, 0x11FED411, 0xBC841005, 0x5BF4DAA8, 0x99CEE3C5, 0x63EE67E3, 0x61FF708F)
  const IPAD_AT_32 :=
    Working(0x89C99F7F, 0x421F94E7, 0x94973530, 0xD7F8F942, 0x5860FD1C, 0xF416698F, 0x47B3E625, 0x8C3269BC)
  const IPAD_AT_40 :=
    Working(0xC1370725, 0x4D57F16B, 0xB48302F8, 0xC0DE7D8C, 0x814B8026, 0x91D64179, 0x6D479276, 0xDC41E25E)
  const IPAD_AT_48 :=
    Working(0x6F531CBC, 0xD0D0B35F, 0xF906089E, 0x335EDC8B, 0x1EA9CE99, 0x59F06A6B, 0x41C1983C, 0xA7EE4566)
  const IPAD_AT_56 :=
    Working(0xE51EF32D, 0xECEF4474, 0xB989964D, 0xDA50CEC8, 0xDC0FA4F8, 0x5D840FD2, 0xF9943F4F, 0xB0EAFB95)
  const IPAD_AT_64 :=
    Working(0xC1A8319D, 0x6851AD74, 0x7879321A, 0x5565F11A, 0xC0E43F9F, 0xB4E61062, 0x790D0C53, 0x08D6B31D)

  lemma IpadWords()
    ensures LeadsOn(Extend, IPAD_0, IPAD_8, IPAD_16) && LeadsOn(Extend, IPAD_8, IPAD_16, IPAD_24)
    ensures LeadsOn(Extend, IPAD_16, IPAD_24, IPAD_32) && LeadsOn(Extend, IPAD_24, IPAD_32, IPAD_40)
    ensures LeadsOn(Extend, IPAD_32, IPAD_40, IPAD_48) && LeadsOn(Extend, IPAD_40, IPAD_48, IPAD_56)
  {
    EightWordsLeadOn(Extend, IPAD_0, IPAD_8, IPAD_16);
    EightWordsLeadOn(Extend, IPAD_8, IPAD_16, IPAD_24);
    EightWordsLeadOn(Extend, IPAD_16, IPAD_24, IPAD_32);
    EightWordsLeadOn(Extend, IPAD_24, IPAD_32, IPAD_40);
    EightWordsLeadOn(Extend, IPAD_32, IPAD_40, IPAD_48);
    EightWordsLeadOn(Extend, IPAD_40, IPAD_48, IPAD_56);
  }

  lemma IpadSteps32()
    ensures Leads(Round, INITIAL_HASH, K_0, IPAD_0, IPAD_AT_8)
    ensures Leads(Round, IPAD_AT_8, K_8, IPAD_8, IPAD_AT_16)
    ensures Leads(Round, IPAD_AT_16, K_16, IPAD_16, IPAD_AT_24)
    ensures Leads(Round, IPAD_AT_24, K_24, IPAD_24, IPAD_AT_32)
  {
    EightStepsLead(Round, INITIAL_HASH, K_0, IPAD_0, IPAD_AT_8);
    EightStepsLead(Round, IPAD_AT_8, K_8, IPAD_8, IPAD_AT_16);
    EightStepsLead(Round, IPAD_AT_16, K_16, IPAD_16, IPAD_AT_24);
    EightStepsLead(Round, IPAD_AT_24, K_24, IPAD_24, IPAD_AT_32);
  }

  lemma IpadSteps64()
    ensures Leads(Round, IPAD_AT_32, K_32, IPAD_32, IPAD_AT_40)
    ensures Leads(Round, IPAD_AT_40, K_40, IPAD_40, IPAD_AT_48)
    ensures Leads(Round, IPAD_AT_48, K_48, IPAD_48, IPAD_AT_56)
    ensures Leads(Round, IPAD_AT_56, K_56, IPAD_56, IPAD_AT_64)
  {
    EightStepsLead(Round, IPAD_AT_32, K_32, IPAD_32, IPAD_AT_40);
    EightStepsLead(Round, IPAD_AT_40, K_40, IPAD_40, IPAD_AT_48);
    EightStepsLead(Round, IPAD_AT_48, K_48, IPAD_48, IPAD_AT_56);
    EightStepsLead(Round, IPAD_AT_56, K_56, IPAD_56, IPAD_AT_64);
  }

  lemma IpadRounds32(h: Working, block: Bytes, t: nat)
    requires |block| == BLOCK_BYTES && t == 0 && Row(block, t, IPAD_0) && Row(block, t + 8, IPAD_8)
    requires Row(block, t + 16, IPAD_16) && Row(block, t + 24, IPAD_24)
    requires RoundsTo(h, block, t) == INITIAL_HASH
    ensures RoundsTo(h, block, t + 32) == IPAD_AT_32
  {
    Constants();
    IpadSteps32();
    NextRounds(h, block, t, INITIAL_HASH, K_0, IPAD_0, IPAD_AT_8);
    NextRounds(h, block, t + 8, IPAD_AT_8, K_8, IPAD_8, IPAD_AT_16);
    NextRounds(h, block, t + 16, IPAD_AT_16, K_16, IPAD_16, IPAD_AT_24);
    NextRounds(h, block, t + 24, IPAD_AT_24, K_24, IPAD_24, IPAD_AT_32);
  }

  lemma IpadRounds64(h: Working, block: Bytes, t: nat)
    requires |block| == BLOCK_BYTES && t == 32 && Row(block, t, IPAD_32) && Row(block, t + 8, IPAD_40)
    requires Row(block, t + 16, IPAD_48) && Row(block, t + 24, IPAD_56)
    requires RoundsTo(h, block, t) == IPAD_AT_32
    ensures RoundsTo(h, block, t + 32) == IPAD_AT_64
  {
    Constants();
    IpadSteps64();
    NextRounds(h, block, t, IPAD_AT_32, K_32, IPAD_32, IPAD_AT_40);
    NextRounds(h, block, t + 8, IPAD_AT_40, K_40, IPAD_40, IPAD_AT_48);
    NextRounds(h, block, t + 16, IPAD_AT_48, K_48, IPAD_48, IPAD_AT_56);
    NextRounds(h, block, t + 24, IPAD_AT_56, K_56, IPAD_56, IPAD_AT_64);
  }

  lemma IpadRows(block: Bytes)
    requires |block| == BLOCK_BYTES && Row(block, 0, IPAD_0) && Row(block, 8, IPAD_8)
    ensures Row(block, 16, IPAD_16) && Row(block, 24, IPAD_24) && Row(block, 32, IPAD_32) && Row(block, 40, IPAD_40)
    ensures Row(block, 48, IPAD_48) && Row(block, 56, IPAD_56)
  {
    IpadWords();
    NextRow(block, 0, IPAD_0, IPAD_8, IPAD_16);
    NextRow(block, 8, IPAD_8, IPAD_16, IPAD_24);
    NextRow(block, 16, IPAD_16, IPAD_24, IPAD_32);
    NextRow(block, 24, IPAD_24, IPAD_32, IPAD_40);
    NextRow(block, 32, IPAD_32, IPAD_40, IPAD_48);
    NextRow(block, 40, IPAD_40, IPAD_48, IPAD_56);
  }

  const IPAD_HASH :=
    Working(0x2BB21804, 0x23B95BF9, 0xB4E8258C, 0xFAB5E654, 0x11F2921E, 0x4FEB78EE, 0x9890E5FE, 0x64B78036)

  lemma IpadBlock(block: Bytes, h: Working)
    requires |block| == BLOCK_BYTES && Row(block, 0, IPAD_0) && Row(block, 8, IPAD_8) && h == INITIAL_HASH
    ensures Compress(h, block) == IPAD_HASH
  {
    IpadRows(block);
    IpadRounds32(h, block, 0);
    IpadRounds64(h, block, 32);
    IpadSum();
  }

  lemma IpadSum()
    ensures IPAD_AT_64.Plus(INITIAL_HASH) == IPAD_HASH
  {
  }

  // --- The text "Hi There" after it ------------------------------------------------------------

  const TEXT_0: seq<word> :=
    [0x48692054, 0x68657265, 0x80000000, 0x00000000, 0x00000000, 0x00000000, 0x00000000, 0x00000000]
  const TEXT_8: seq<word> :=
    [0x00000000, 0x00000000, 0x00000000, 0x00000000, 0x00000000, 0x00000000, 0x00000000, 0x00000240]
  const TEXT_16: seq<word> :=
    [0xE3AE5F05, 0x7ACD9265, 0x645AA635, 0x7B60A15B, 0x07C5080F, 0x44980AF4, 0x25079498, 0xE7E3EBE2]
  const TEXT_24: seq<word> :=
    [0xB3A3EA2B, 0xED0F7E2C, 0x03DCE8BA, 0x58ADB108, 0x2DE2C1A3, 0x93BAA0C7, 0xA162782B, 0x3877B122]
  const TEXT_32: seq<word> :=
    [0xE52C510F, 0x7D347A94, 0xF173A815, 0xB8404A00, 0x1F5AE3C0, 0xE435D354, 0xAEEA240B, 0xDCA3F752]
  const TEXT_40: seq<word> :=
    [0x2378475A, 0xB249E7AA, 0x5F52B9E4, 0x3AA488AB, 0x5353CB9B, 0xF5577BA3, 0xC9E71E09, 0xC5B4F623]
  const TEXT_48: seq<word> :=
    [0x3E67D5AB, 0xA23619D7, 0x4180398E, 0x16B3ACDF, 0xF234D122, 0xDD913234, 0xAB2252C2, 0x7C76CEEE]
  const TEXT_56: seq<word> :=
    [0x63892D3A, 0x1FADF2D9, 0x9C341D6E, 0x4233AB5C, 0x45CB4B40, 0x0E7C539E, 0x75EC4BCA, 0x71D877C9]

  const TEXT_AT_8 :=
    Working(0xCE3494B4, 0x85C6A7F0, 0xD66E4864, 0xEBA36673, 0x54AB0FF0, 0x3BEFF05C, 0x5C076C2B, 0x4936B04E)
  const TEXT_AT_16 :=
    Working(0xB8CCBA9A, 0xD06247CA, 0x30DD05D1, 0x75F5BA65, 0xCC5B50CF, 0xBDCD8BB1, 0x324501C3, 0x85AF8EC4)
  const TEXT_AT_24 :=
    Working(0xECE3691C, 0xBA3BB3FE, 0x6AE0E6ED, 0xDD265904, 0x9B8F2382, 0xD9187745, 0x87A4EC80, 0x8DC77DEC)
  const TEXT_AT_32 :=
    Working(0x26A1971A, 0x40FA9B72, 0x94ACEED1, 0xD4AD0E4C, 0xE1BF8D0F, 0x6FF1D8BE, 0x9A61B911, 0x4DB711E5)
  const TEXT_AT_40 :=
    Working(0xC8E29587, 0xA5B00AB4, 0x76D1EC55, 0x34157628, 0xB3D345DF, 0xCDFABBFC, 0xF8D6D122, 0x1D6EB0F8)
  const TEXT_AT_48 :=
    Working(0x182DEE89, 0xF1EAB7EF, 0x011929A4, 0x17ABE18A, 0x9C68E53C, 0x2BDA9036, 0xACB0D543, 0xFA181FBA)
  const TEXT_AT_56 :=
    Working(0x04E3DF1D, 0x628192BE, 0x2F56F280, 0x8B7CA9B9, 0x99DFF112, 0xFA7BFBD7, 0xADA69ACC, 0xA25A12EA)
  const TEXT_AT_64 :=
    Working(0x66F93596, 0xFB820559, 0x07C1B812, 0x6EF95DA0, 0xBCA75211, 0x84F7970B, 0xDA339A27, 0x55424FB9)

  lemma TextWords()
    ensures LeadsOn(Extend, TEXT_0, TEXT_8, TEXT_16) && LeadsOn(Extend, TEXT_8, TEXT_16, TEXT_24)
    ensures LeadsOn(Extend, TEXT_16, TEXT_24, TEXT_32) && LeadsOn(Extend, TEXT_24, TEXT_32, TEXT_40)
    ensures LeadsOn(Extend, TEXT_32, TEXT_40, TEXT_48) && LeadsOn(Extend, TEXT_40, TEXT_48, TEXT_56)
  {
    EightWordsLeadOn(Extend, TEXT_0, TEXT_8, TEXT_16);
    EightWordsLeadOn(Extend, TEXT_8, TEXT_16, TEXT_24);
    EightWordsLeadOn(Extend, TEXT_16, TEXT_24, TEXT_32);
    EightWordsLeadOn(Extend, TEXT_24, TEXT_32, TEXT_40);
    EightWordsLeadOn(Extend, TEXT_32, TEXT_40, TEXT_48);
    EightWordsLeadOn(Extend, TEXT_40, TEXT_48, TEXT_56);
  }

  lemma TextSteps32()
    ensures Leads(Round, IPAD_HASH, K_0, TEXT_0, TEXT_AT_8)
    ensures Leads(Round, TEXT_AT_8, K_8, TEXT_8, TEXT_AT_16)
    ensures Leads(Round, TEXT_AT_16, K_16, TEXT_16, TEXT_AT_24)
    ensures Leads(Round, TEXT_AT_24, K_24, TEXT_24, TEXT_AT_32)
  {
    EightStepsLead(Round, IPAD_HASH, K_0, TEXT_0, TEXT_AT_8);
    EightStepsLead(Round, TEXT_AT_8, K_8, TEXT_8, TEXT_AT_16);
    EightStepsLead(Round, TEXT_AT_16, K_16, TEXT_16, TEXT_AT_24);
    EightStepsLead(Round, TEXT_AT_24, K_24, TEXT_24, TEXT_AT_32);
  }

  lemma TextSteps64()
    ensures Leads(Round, TEXT_AT_32, K_32, TEXT_32, TEXT_AT_40)
    ensures Leads(Round, TEXT_AT_40, K_40, TEXT_40, TEXT_AT_48)
    ensures Leads(Round, TEXT_AT_48, K_48, TEXT_48, TEXT_AT_56)
    ensures Leads(Round, TEXT_AT_56, K_56, TEXT_56, TEXT_AT_64)
  {
    EightStepsLead(Round, TEXT_AT_32, K_32, TEXT_32, TEXT_AT_40);
    EightStepsLead(Round, TEXT_AT_40, K_40, TEXT_40, TEXT_AT_48);
    EightStepsLead(Round, TEXT_AT_48, K_48, TEXT_48, TEXT_AT_56);
    EightStepsLead(Round, TEXT_AT_56, K_56, TEXT_56, TEXT_AT_64);
  }

  lemma TextRounds32(h: Working, block: Bytes, t: nat)
    requires |block| == BLOCK_BYTES && t == 0 && Row(block, t, TEXT_0) && Row(block, t + 8, TEXT_8)
    requires Row(block, t + 16, TEXT_16) && Row(block, t + 24, TEXT_24)
    requires RoundsTo(h, block, t) == IPAD_HASH
    ensures RoundsTo(h, block, t + 32) == TEXT_AT_32
  {
    Constants();
    TextSteps32();
    NextRounds(h, block, t, IPAD_HASH, K_0, TEXT_0, TEXT_AT_8);
    NextRounds(h, block, t + 8, TEXT_AT_8, K_8, TEXT_8, TEXT_AT_16);
    NextRounds(h, block, t + 16, TEXT_AT_16, K_16, TEXT_16, TEXT_AT_24);
    NextRounds(h, block, t + 24, TEXT_AT_24, K_24, TEXT_24, TEXT_AT_32);
  }

  lemma TextRounds64(h: Working, block: Bytes, t: nat)
    requires |block| == BLOCK_BYTES && t == 32 && Row(block, t, TEXT_32) && Row(block, t + 8, TEXT_40)
    requires Row(block, t + 16, TEXT_48) && Row(block, t + 24, TEXT_56)
    requires RoundsTo(h, block, t) == TEXT_AT_32
    ensures RoundsTo(h, block, t + 32) == TEXT_AT_64
  {
    Constants();
    TextSteps64();
    NextRounds(h, block, t, TEXT_AT_32, K_32, TEXT_32, TEXT_AT_40);
    NextRounds(h, block, t + 8, TEXT_AT_40, K_40, TEXT_40, TEXT_AT_48);
    NextRounds(h, block, t + 16, TEXT_AT_48, K_48, TEXT_48, TEXT_AT_56);
    NextRounds(h, block, t + 24, TEXT_AT_56, K_56, TEXT_56, TEXT_AT_64);
  }

  lemma TextRows(block: Bytes)
    requires |block| == BLOCK_BYTES && Row(block, 0, TEXT_0) && Row(block, 8, TEXT_8)
    ensures Row(block, 16, TEXT_16) && Row(block, 24, TEXT_24) && Row(block, 32, TEXT_32) && Row(block, 40, TEXT_40)
    ensures Row(block, 48, TEXT_48) && Row(block, 56, TEXT_56)
  {
    TextWords();
    NextRow(block, 0, TEXT_0, TEXT_8, TEXT_16);
    NextRow(block, 8, TEXT_8, TEXT_16, TEXT_24);
    NextRow(block, 16, TEXT_16, TEXT_24, TEXT_32);
    NextRow(block, 24, TEXT_24, TEXT_32, TEXT_40);
    NextRow(block, 32, TEXT_32, TEXT_40, TEXT_48);
    NextRow(block, 40, TEXT_40, TEXT_48, TEXT_56);
  }

  const TEXT_HASH :=
    Working(0x92AB4D9A, 0x1F3B6152, 0xBCA9DD9E, 0x69AF43F4, 0xCE99E42F, 0xD4E30FF9, 0x72C48025, 0xB9F9CFEF)

  lemma TextBlock(block: Bytes, h: Working)
    requires |block| == BLOCK_BYTES && Row(block, 0, TEXT_0) && Row(block, 8, TEXT_8) && h == IPAD_HASH
    ensures Compress(h, block) == TEXT_HASH
  {
    TextRows(block);
    TextRounds32(h, block, 0);
    TextRounds64(h, block, 32);
    TextSum();
  }

  lemma TextSum()
    ensures TEXT_AT_64.Plus(IPAD_HASH) == TEXT_HASH
  {
  }

  // --- The key block with the outer pad --------------------------------------------------------

  const OPAD_0: seq<word> :=
    [0x57575757, 0x57575757, 0x57575757, 0x57575757, 0x57575757, 0x5C5C5C5C, 0x5C5C5C5C, 0x5C5C5C5C]
  const OPAD_8: seq<word> :=
    [0x5C5C5C5C, 0x5C5C5C5C, 0x5C5C5C5C, 0x5C5C5C5C, 0x5C5C5C5C, 0x5C5C5C5C, 0x5C5C5C5C, 0x5C5C5C5C]
  const OPAD_16: seq<word> :=
    [0xCAF7F7F6, 0xCAF7F7F6, 0x2A7C471C, 0x2A7C471C, 0x033EE737, 0x0843EC3C, 0x0C5A8B1D, 0x57140E48]
  const OPAD_24: seq<word> :=
    [0xE066A97A, 0xB1F5AC07, 0xACA6FD31, 0x676EBB66, 0xA9DA3734, 0x97A13091, 0xB4EB4623, 0x0478BAEA]
  const OPAD_32: seq<word> :=
    [0x521CDDE2, 0xEEA4CCB6, 0xB42161EE, 0xABF8E3EC, 0xB9DF94E3, 0xC425187D, 0xE375DE48, 0x1BC3E05E]
  const OPAD_40: seq<word> :=
    [0x963DD978, 0xBBBB45CB, 0x1F514B8D, 0xDD666DC2, 0x78AF495C, 0xF701CECF, 0x18882647, 0x72D98FF5]
  const OPAD_48: seq<word> :=
    [0x68E9DCAF, 0x97A67D8D, 0x5C33FA12, 0x4B6B61C2, 0xD8516549, 0xB3B35D6C, 0x3BE3AEF3, 0xDF9AC597]
  const OPAD_56: seq<word> :=
    [0x22004A47, 0x9D75FE9E, 0x9C8758DB, 0x5C273D08, 0x66720A51, 0x30C97CC0, 0xC3E1CDAA, 0x4BB53874]

  const OPAD_AT_8 :=
    Working(0x1A2C02E9, 0xF046B3DB, 0xC6C531FF, 0xD8488AF1, 0x8E33DED1, 0x6C172A91, 0x1720B67C, 0x9FDBD50A)
  const OPAD_AT_16 :=
    Working(0x40AAD1E6, 0xCEA50343, 0xDEA615B5, 0x2201A121, 0xDFF2975A, 0xB43CD567, 0x0B0403E6, 0x4D4EE4B6)
  const OPAD_AT_24 :=
    Working(0x5154FF48, 0x6FE3E2CE, 0xA5B08B89, 0x3ADB583F, 0xEB7C381E, 0xE346FF5D, 0xD69E5998, 0xDB86909E)
  const OPAD_AT_32 :=
    Working(0xC07D698B, 0x2AD89477, 0x927E71D9, 0xB849E8C8, 0x03D7688D, 0x7863BC42, 0xD56EA8E1, 0xA6F942F1)
  const OPAD_AT_40 :=
    Working(0x0129C145, 0x5B9FFFA5, 0xE1A9212C, 0x7850B66F, 0x86FB4E59, 0xAC5E6F16, 0x0B4479D3, 0x55A29690)
  const OPAD_AT_48 :=
    Working(0x47715B1E, 0xF1FC8092, 0x93BD252D, 0x52D78031, 0x4BE4311D, 0xB910D5C2, 0xAD26734C, 0xC1E22213)
  const OPAD_AT_56 :=
    Working(0x0409B203, 0xE3D281C0, 0x79226613, 0x93738C5D, 0x0847AC5D, 0x1D4BDC89, 0x2A3A92FF, 0x8EB3B7B9)
  const OPAD_AT_64 :=
    Working(0xBDDD8D38, 0x1DEE76FE, 0x1A677370, 0xBA3118AE, 0x9B4FFD0B, 0xBA37E72C, 0x1D7B470F, 0xB4427E27)

  lemma OpadWords()
    ensures LeadsOn(Extend, OPAD_0, OPAD_8, OPAD_16) && LeadsOn(Extend, OPAD_8, OPAD_16, OPAD_24)
    ensures LeadsOn(Extend, OPAD_16, OPAD_24, OPAD_32) && LeadsOn(Extend, OPAD_24, OPAD_32, OPAD_40)
    ensures LeadsOn(Extend, OPAD_32, OPAD_40, OPAD_48) && LeadsOn(Extend, OPAD_40, OPAD_48, OPAD_56)
  {
    EightWordsLeadOn(Extend, OPAD_0, OPAD_8, OPAD_16);
    EightWordsLeadOn(Extend, OPAD_8, OPAD_16, OPAD_24);
    EightWordsLeadOn(Extend, OPAD_16, OPAD_24, OPAD_32);
    EightWordsLeadOn(Extend, OPAD_24, OPAD_32, OPAD_40);
    EightWordsLeadOn(Extend, OPAD_32, OPAD_40, OPAD_48);
    EightWordsLeadOn(Extend, OPAD_40, OPAD_48, OPAD_56);
  }

  lemma OpadSteps32()
    ensures Leads(Round, INITIAL_HASH, K_0, OPAD_0, OPAD_AT_8)
    ensures Leads(Round, OPAD_AT_8, K_8, OPAD_8, OPAD_AT_16)
    ensures Leads(Round, OPAD_AT_16, K_16, OPAD_16, OPAD_AT_24)
    ensures Leads(Round, OPAD_AT_24, K_24, OPAD_24, OPAD_AT_32)
  {
    EightStepsLead(Round, INITIAL_HASH, K_0, OPAD_0, OPAD_AT_8);
    EightStepsLead(Round, OPAD_AT_8, K_8, OPAD_8, OPAD_AT_16);
    EightStepsLead(Round, OPAD_AT_16, K_16, OPAD_16, OPAD_AT_24);
    EightStepsLead(Round, OPAD_AT_24, K_24, OPAD_24, OPAD_AT_32);
  }

  lemma OpadSteps64()
    ensures Leads(Round, OPAD_AT_32, K_32, OPAD_32, OPAD_AT_40)
    ensures Leads(Round, OPAD_AT_40, K_40, OPAD_40, OPAD_AT_48)
    ensures Leads(Round, OPAD_AT_48, K_48, OPAD_48, OPAD_AT_56)
    ensures Leads(Round, OPAD_AT_56, K_56, OPAD_56, OPAD_AT_64)
  {
    EightStepsLead(Round, OPAD_AT_32, K_32, OPAD_32, OPAD_AT_40);
    EightStepsLead(Round, OPAD_AT_40, K_40, OPAD_40, OPAD_AT_48);
    EightStepsLead(Round, OPAD_AT_48, K_48, OPAD_48, OPAD_AT_56);
    EightStepsLead(Round, OPAD_AT_56, K_56, OPAD_56, OPAD_AT_64);
  }

  lemma OpadRounds32(h: Working, block: Bytes, t: nat)
    requires |block| == BLOCK_BYTES && t == 0 && Row(block, t, OPAD_0) && Row(block, t + 8, OPAD_8)
    requires Row(block, t + 16, OPAD_16) && Row(block, t + 24, OPAD_24)
    requires RoundsTo(h, block, t) == INITIAL_HASH
    ensures RoundsTo(h, block, t + 32) == OPAD_AT_32
  {
    Constants();
    OpadSteps32();
    NextRounds(h, block, t, INITIAL_HASH, K_0, OPAD_0, OPAD_AT_8);
    NextRounds(h, block, t + 8, OPAD_AT_8, K_8, OPAD_8, OPAD_AT_16);
    NextRounds(h, block, t + 16, OPAD_AT_16, K_16, OPAD_16, OPAD_AT_24);
    NextRounds(h, block, t + 24, OPAD_AT_24, K_24, OPAD_24, OPAD_AT_32);
  }

  lemma OpadRounds64(h: Working, block: Bytes, t: nat)
    requires |block| == BLOCK_BYTES && t == 32 && Row(block, t, OPAD_32) && Row(block, t + 8, OPAD_40)
    requires Row(block, t + 16, OPAD_48) && Row(block, t + 24, OPAD_56)
    requires RoundsTo(h, block, t) == OPAD_AT_32
    ensures RoundsTo(h, block, t + 32) == OPAD_AT_64
  {
    Constants();
    OpadSteps64();
    NextRounds(h, block, t, OPAD_AT_32, K_32, OPAD_32, OPAD_AT_40);
    NextRounds(h, block, t + 8, OPAD_AT_40, K_40, OPAD_40, OPAD_AT_48);
    NextRounds(h, block, t + 16, OPAD_AT_48, K_48, OPAD_48, OPAD_AT_56);
    NextRounds(h, block, t + 24, OPAD_AT_56, K_56, OPAD_56, OPAD_AT_64);
  }

  lemma OpadRows(block: Bytes)
    requires |block| == BLOCK_BYTES && Row(block, 0, OPAD_0) && Row(block, 8, OPAD_8)
    ensures Row(block, 16, OPAD_16) && Row(block, 24, OPAD_24) && Row(block, 32, OPAD_32) && Row(block, 40, OPAD_40)
    ensures Row(block, 48, OPAD_48) && Row(block, 56, OPAD_56)
  {
    OpadWords();
    NextRow(block, 0, OPAD_0, OPAD_8, OPAD_16);
    NextRow(block, 8, OPAD_8, OPAD_16, OPAD_24);
    NextRow(block, 16, OPAD_16, OPAD_24, OPAD_32);
    NextRow(block, 24, OPAD_24, OPAD_32, OPAD_40);
    NextRow(block, 32, OPAD_32, OPAD_40, OPAD_48);
    NextRow(block, 40, OPAD_40, OPAD_48, OPAD_56);
  }

  const OPAD_HASH :=
    Working(0x27E7739F, 0xD9562583, 0x56D666E2, 0x5F810DE8, 0xEC5E4F8A, 0x553D4FB8, 0x3CFF20BA, 0x10234B40)

  lemma OpadBlock(block: Bytes, h: Working)
    requires |block| == BLOCK_BYTES && Row(block, 0, OPAD_0) && Row(block, 8, OPAD_8) && h == INITIAL_HASH
    ensures Compress(h, block) == OPAD_HASH
  {
    OpadRows(block);
    OpadRounds32(h, block, 0);
    OpadRounds64(h, block, 32);
    OpadSum();
  }

  lemma OpadSum()
    ensures OPAD_AT_64.Plus(INITIAL_HASH) == OPAD_HASH
  {
  }

  // --- The inner digest after it ---------------------------------------------------------------

  const LAST_0: seq<word> :=
    [0x92AB4D9A, 0x1F3B6152, 0xBCA9DD9E, 0x69AF43F4, 0xCE99E42F, 0xD4E30FF9, 0x72C48025, 0xB9F9CFEF]
  const LAST_8: seq<word> :=
    [0x80000000, 0x00000000, 0x00000000, 0x00000000, 0x00000000, 0x00000000, 0x00000000, 0x00000300]
  const LAST_16: seq<word> :=
    [0x1238EAC0, 0x7EA72874, 0x5A020F91, 0x1A205A2C, 0x3F91BDC9, 0x5FEC5BF0, 0x17CE0396, 0x83C4B9CC]
  const LAST_24: seq<word> :=
    [0xC0636312, 0x26013045, 0xF7FB7B11, 0xFDB57555, 0x32C397CC, 0x2C0D2FC7, 0x3D97EA0E, 0xAB473EE1]
  const LAST_32: seq<word> :=
    [0x6DB88C7F, 0x9938E7F6, 0xFD5E07A7, 0xB7071EA0, 0x2C758847, 0xB861AC28, 0xDF41F008, 0xBA84B45E]
  const LAST_40: seq<word> :=
    [0xE26C5D24, 0xD3BE4795, 0x3D29CB4A, 0x9106B33B, 0x8810CBDB, 0x7C7878CE, 0x8E575314, 0x918947AB]
  const LAST_48: seq<word> :=
    [0x4D2AE2C8, 0x33200F90, 0x4BB9E092, 0x2F165377, 0xA2AE5CAD, 0xA0EC416A, 0xDDE9378A, 0xF3204226]
  const LAST_56: seq<word> :=
    [0x72C57C4A, 0x29F17DC0, 0x47BD2466, 0x59EC5869, 0xECEF729B, 0xEDA51486, 0xED962388, 0x4EC4A0EE]

  const LAST_AT_8 :=
    Working(0xA9E77929, 0xF1F1CF0E, 0xFF3144EB, 0x43F9FB8C, 0x8C9A1D72, 0x7ABC3F46, 0x576210A0, 0xF38EF73A)
  const LAST_AT_16 :=
    Working(0x4BF55010, 0x0BBC9099, 0xB8DC0FCD, 0x6239A99B, 0x5A1511DB, 0x5DCAFDDE, 0x731D63E2, 0xF833B364)
  const LAST_AT_24 :=
    Working(0xC0468AE6, 0x2DFD894E, 0x373165DC, 0x89446B43, 0x6B8A9D06, 0xB61CF65B, 0xCB064053, 0xBF56FFEB)
  const LAST_AT_32 :=
    Working(0x93A56A9D, 0x4E89E357, 0x78DF84E4, 0x7270C6B6, 0xB70EF198, 0xFC163CF1, 0x3E227000, 0x3F694601)
  const LAST_AT_40 :=
    Working(0x3E1E0532, 0x9C15C962, 0xD5684C51, 0x8DFC637E, 0xC56E47B4, 0x020A2FDD, 0xCA03E83D, 0x7C61D0DA)
  const LAST_AT_48 :=
    Working(0xF7F803DA, 0x4679EDD7, 0x2843E607, 0x6E5CAA92, 0x31E65D4A, 0x58CC4ED9, 0x0EC8A69D, 0x85D7F703)
  const LAST_AT_56 :=
    Working(0x9CD75623, 0xD97FBFF0, 0x6385DCAF, 0x8777852F, 0xBA02D93C, 0x537426F8, 0xE5116204, 0x1DE2F6E3)
  const LAST_AT_64 :=
    Working(0x884CD8C2, 0xFF8512D0, 0x05D248EC, 0x4F8AE343, 0x9BBF7276, 0x7445EDEF, 0xE9EA16B2, 0x1E0F84B7)

  lemma LastWords()
    ensures LeadsOn(Extend, LAST_0, LAST_8, LAST_16) && LeadsOn(Extend, LAST_8, LAST_16, LAST_24)
    ensures LeadsOn(Extend, LAST_16, LAST_24, LAST_32) && LeadsOn(Extend, LAST_24, LAST_32, LAST_40)
    ensures LeadsOn(Extend, LAST_32, LAST_40, LAST_48) && LeadsOn(Extend, LAST_40, LAST_48, LAST_56)
  {
    EightWordsLeadOn(Extend, LAST_0, LAST_8, LAST_16);
    EightWordsLeadOn(Extend, LAST_8, LAST_16, LAST_24);
    EightWordsLeadOn(Extend, LAST_16, LAST_24, LAST_32);
    EightWordsLeadOn(Extend, LAST_24, LAST_32, LAST_40);
    EightWordsLeadOn(Extend, LAST_32, LAST_40, LAST_48);
    EightWordsLeadOn(Extend, LAST_40, LAST_48, LAST_56);
  }

  lemma LastSteps32()
    ensures Leads(Round, OPAD_HASH, K_0, LAST_0, LAST_AT_8)
    ensures Leads(Round, LAST_AT_8, K_8, LAST_8, LAST_AT_16)
    ensures Leads(Round, LAST_AT_16, K_16, LAST_16, LAST_AT_24)
    ensures Leads(Round, LAST_AT_24, K_24, LAST_24, LAST_AT_32)
  {
    EightStepsLead(Round, OPAD_HASH, K_0, LAST_0, LAST_AT_8);
    EightStepsLead(Round, LAST_AT_8, K_8, LAST_8, LAST_AT_16);
    EightStepsLead(Round, LAST_AT_16, K_16, LAST_16, LAST_AT_24);
    EightStepsLead(Round, LAST_AT_24, K_24, LAST_24, LAST_AT_32);
  }

  lemma LastSteps64()
    ensures Leads(Round, LAST_AT_32, K_32, LAST_32, LAST_AT_40)
    ensures Leads(Round, LAST_AT_40, K_40, LAST_40, LAST_AT_48)
    ensures Leads(Round, LAST_AT_48, K_48, LAST_48, LAST_AT_56)
    ensures Leads(Round, LAST_AT_56, K_56, LAST_56, LAST_AT_64)
  {
    EightStepsLead(Round, LAST_AT_32, K_32, LAST_32, LAST_AT_40);
    EightStepsLead(Round, LAST_AT_40, K_40, LAST_40, LAST_AT_48);
    EightStepsLead(Round, LAST_AT_48, K_48, LAST_48, LAST_AT_56);
    EightStepsLead(Round, LAST_AT_56, K_56, LAST_56, LAST_AT_64);
  }

  lemma LastRounds32(h: Working, block: Bytes, t: nat)
    requires |block| == BLOCK_BYTES && t == 0 && Row(block, t, LAST_0) && Row(block, t + 8, LAST_8)
    requires Row(block, t + 16, LAST_16) && Row(block, t + 24, LAST_24)
    requires RoundsTo(h, block, t) == OPAD_HASH
    ensures RoundsTo(h, block, t + 32) == LAST_AT_32
  {
    Constants();
    LastSteps32();
    NextRounds(h, block, t, OPAD_HASH, K_0, LAST_0, LAST_AT_8);
    NextRounds(h, block, t + 8, LAST_AT_8, K_8, LAST_8, LAST_AT_16);
    NextRounds(h, block, t + 16, LAST_AT_16, K_16, LAST_16, LAST_AT_24);
    NextRounds(h, block, t + 24, LAST_AT_24, K_24, LAST_24, LAST_AT_32);
  }

  lemma LastRounds64(h: Working, block: Bytes, t: nat)
    requires |block| == BLOCK_BYTES && t == 32 && Row(block, t, LAST_32) && Row(block, t + 8, LAST_40)
    requires Row(block, t + 16, LAST_48) && Row(block, t + 24, LAST_56)
    requires RoundsTo(h, block, t) == LAST_AT_32
    ensures RoundsTo(h, block, t + 32) == LAST_AT_64
  {
    Constants();
    LastSteps64();
    NextRounds(h, block, t, LAST_AT_32, K_32, LAST_32, LAST_AT_40);
    NextRounds(h, block, t + 8, LAST_AT_40, K_40, LAST_40, LAST_AT_48);
    NextRounds(h, block, t + 16, LAST_AT_48, K_48, LAST_48, LAST_AT_56);
    NextRounds(h, block, t + 24, LAST_AT_56, K_56, LAST_56, LAST_AT_64);
  }

  lemma LastRows(block: Bytes)
    requires |block| == BLOCK_BYTES && Row(block, 0, LAST_0) && Row(block, 8, LAST_8)
    ensures Row(block, 16, LAST_16) && Row(block, 24, LAST_24) && Row(block, 32, LAST_32) && Row(block, 40, LAST_40)
    ensures Row(block, 48, LAST_48) && Row(block, 56, LAST_56)
  {
    LastWords();
    NextRow(block, 0, LAST_0, LAST_8, LAST_16);
    NextRow(block, 8, LAST_8, LAST_16, LAST_24);
    NextRow(block, 16, LAST_16, LAST_24, LAST_32);
    NextRow(block, 24, LAST_24, LAST_32, LAST_40);
    NextRow(block, 32, LAST_32, LAST_40, LAST_48);
    NextRow(block, 40, LAST_40, LAST_48, LAST_56);
  }

  const LAST_HASH :=
    Working(0xB0344C61, 0xD8DB3853, 0x5CA8AFCE, 0xAF0BF12B, 0x881DC200, 0xC9833DA7, 0x26E9376C, 0x2E32CFF7)

  lemma LastBlock(block: Bytes, h: Working)
    requires |block| == BLOCK_BYTES && Row(block, 0, LAST_0) && Row(block, 8, LAST_8) && h == OPAD_HASH
    ensures Compress(h, block) == LAST_HASH
  {
    LastRows(block);
    LastRounds32(h, block, 0);
    LastRounds64(h, block, 32);
    LastSum();
  }

  lemma LastSum()
    ensures LAST_AT_64.Plus(OPAD_HASH) == LAST_HASH
  {
  }

  // --- "abc" -----------------------------------------------------------------------------------

  const ABC: Bytes := [0x61, 0x62, 0x63]

  lemma AbcPadding(message: Bytes)
    requires message == ABC
    ensures Pad(message) == Concat(ABC_0 + ABC_8)
  {
    var zeros: seq<word> := seq(14, _ => 0);
    FirstZerosLast(0x61626380, zeros, 24, [0x61, 0x62, 0x63, 0x80], [0, 0, 0, 24]);
    PadAbc(message, 24);
    assert ABC_0 + ABC_8 == [0x61626380] + zeros + [24];
  }

  lemma PadAbc(message: Bytes, bits: nat)
    requires message == ABC && bits == 24
    ensures Pad(message) == [0x61, 0x62, 0x63, 0x80] + Zeros(56) + [0, 0, 0, 24]
  {
    ShortLength(bits, 0, 24);
    assert bits == 8 * |message|;
  }

  lemma AbcDigest()
    ensures Concat(ABC_HASH.Words()) ==
      [0xBA, 0x78, 0x16, 0xBF] + [0x8F, 0x01, 0xCF, 0xEA] + [0x41, 0x41, 0x40, 0xDE] + [0x5D, 0xAE, 0x22, 0x23]
      + [0xB0, 0x03, 0x61, 0xA3] + [0x96, 0x17, 0x7A, 0x9C] + [0xB4, 0x10, 0xFF, 0x61] + [0xF2, 0x00, 0x15, 0xAD]
  {
    DigestIs(ABC_HASH,
             [0xBA, 0x78, 0x16, 0xBF], [0x8F, 0x01, 0xCF, 0xEA], [0x41, 0x41, 0x40, 0xDE], [0x5D, 0xAE, 0x22, 0x23],
             [0xB0, 0x03, 0x61, 0xA3], [0x96, 0x17, 0x7A, 0x9C], [0xB4, 0x10, 0xFF, 0x61], [0xF2, 0x00, 0x15, 0xAD]);
  }

  lemma AbcCompressed()
    ensures Compress(INITIAL_HASH, Concat(ABC_0 + ABC_8)) == ABC_HASH
  {
    FirstRows(ABC_0, ABC_8);
    AbcBlock(Concat(ABC_0 + ABC_8), INITIAL_HASH);
  }

  lemma AbcHash(message: Bytes)
    requires message == ABC
    ensures Sha256(message) == Concat(ABC_HASH.Words())
  {
    AbcPadding(message);
    AbcCompressed();
    HashOfOne(message, Concat(ABC_0 + ABC_8), ABC_HASH);
  }

  // The one-block example of FIPS 180-4.
  lemma HashOfAbc()
    ensures Sha256([0x61, 0x62, 0x63]) ==
      [0xBA, 0x78, 0x16, 0xBF] + [0x8F, 0x01, 0xCF, 0xEA] + [0x41, 0x41, 0x40, 0xDE] + [0x5D, 0xAE, 0x22, 0x23]
      + [0xB0, 0x03, 0x61, 0xA3] + [0x96, 0x17, 0x7A, 0x9C] + [0xB4, 0x10, 0xFF, 0x61] + [0xF2, 0x00, 0x15, 0xAD]
  {
    AbcHash(ABC);
    AbcDigest();
  }

  // --- HMAC ------------------------------------------------------------------------------------

  // The key and the data of test case 1 of RFC 4231.
  const KEY: Bytes := seq(20, _ => 0x0B)
  const HI_THERE: Bytes := [0x48, 0x69, 0x20, 0x54, 0x68, 0x65, 0x72, 0x65]

  lemma PadsOfKey()
    ensures XorEach(BlockKey(KEY), 0x36) == Concat(IPAD_0 + IPAD_8)
    ensures XorEach(BlockKey(KEY), 0x5C) == Concat(OPAD_0 + OPAD_8)
  {
    PadOfKey(0x36, 0x3D, 0x3D3D3D3D, 0x36363636, IPAD_0 + IPAD_8);
    PadOfKey(0x5C, 0x57, 0x57575757, 0x5C5C5C5C, OPAD_0 + OPAD_8);
  }

  lemma PadOfKey(pad: byte, low: byte, first: word, rest: word, ws: seq<word>)
    requires 0x0B ^ pad == low && 0 ^ pad == pad
    requires WordBytes(first) == [low, low, low, low] && WordBytes(rest) == [pad, pad, pad, pad]
    requires |ws| == 16 && forall i :: 0 <= i < 16 ==> ws[i] == if i < 5 then first else rest
    ensures XorEach(BlockKey(KEY), pad) == Concat(ws)
  {
    var b := XorEach(BlockKey(KEY), pad);
    forall i | 0 <= i < 16
      ensures b[4 * i..4 * i + 4] == WordBytes(ws[i])
    {
    }
    ConcatIs(b, ws);
  }

  lemma InnerTail(ending: Bytes)
    requires ending == [0x80, 0, 0, 0] + Zeros(48) + [0, 0, 2, 64]
    ensures Concat(TEXT_0 + TEXT_8) == HI_THERE + ending
  {
    var text: seq<word> := [0x48692054, 0x68657265];
    var zeros: seq<word> := seq(12, _ => 0);
    ConcatIs(HI_THERE, text);
    FirstZerosLast(0x80000000, zeros, 576, [0x80, 0, 0, 0], [0, 0, 2, 64]);
    ConcatJoins(text, [0x80000000] + zeros + [576]);
    assert TEXT_0 + TEXT_8 == text + ([0x80000000] + zeros + [576]);
  }

  lemma InnerPadding(a: seq<word>, b: seq<word>, text: Bytes, n: nat)
    requires |a| == 16 && |text| == 8 && n == 18
    requires Concat(b) == text + ([0x80, 0, 0, 0] + Zeros(48) + [0, 0, 2, 64])
    ensures Pad(Concat(a) + text) == Concat(a + b)
  {
    ShortLength(32 * n, 2, 64);
    PadAfter(a, b, text, n, 12, [0, 0, 2, 64]);
  }

  lemma InnerHash()
    ensures Sha256(Concat(IPAD_0 + IPAD_8) + HI_THERE) == Concat(TEXT_HASH.Words())
  {
    InnerTail([0x80, 0, 0, 0] + Zeros(48) + [0, 0, 2, 64]);
    InnerPadding(IPAD_0 + IPAD_8, TEXT_0 + TEXT_8, HI_THERE, 18);
    HashOfTwo(Concat(IPAD_0 + IPAD_8) + HI_THERE, IPAD_0 + IPAD_8, TEXT_0 + TEXT_8);
    FirstRows(IPAD_0, IPAD_8);
    FirstRows(TEXT_0, TEXT_8);
    IpadBlock(Concat(IPAD_0 + IPAD_8), INITIAL_HASH);
    TextBlock(Concat(TEXT_0 + TEXT_8), IPAD_HASH);
  }

  lemma OuterTail(ending: Bytes)
    requires ending == [0x80, 0, 0, 0] + Zeros(24) + [0, 0, 3, 0]
    ensures Concat(LAST_0 + LAST_8) == Concat(TEXT_HASH.Words()) + ending
  {
    var text := TEXT_HASH.Words();
    var zeros: seq<word> := seq(6, _ => 0);
    FirstZerosLast(0x80000000, zeros, 768, [0x80, 0, 0, 0], [0, 0, 3, 0]);
    ConcatJoins(text, [0x80000000] + zeros + [768]);
    assert LAST_0 + LAST_8 == text + ([0x80000000] + zeros + [768]);
  }

  lemma OuterPadding(a: seq<word>, b: seq<word>, text: Bytes, n: nat)
    requires |a| == 16 && |text| == 32 && n == 24
    requires Concat(b) == text + ([0x80, 0, 0, 0] + Zeros(24) + [0, 0, 3, 0])
    ensures Pad(Concat(a) + text) == Concat(a + b)
  {
    ShortLength(32 * n, 3, 0);
    PadAfter(a, b, text, n, 6, [0, 0, 3, 0]);
  }

  lemma OuterHash()
    ensures Sha256(Concat(OPAD_0 + OPAD_8) + Concat(TEXT_HASH.Words())) == Concat(LAST_HASH.Words())
  {
    OuterTail([0x80, 0, 0, 0] + Zeros(24) + [0, 0, 3, 0]);
    OuterPadding(OPAD_0 + OPAD_8, LAST_0 + LAST_8, Concat(TEXT_HASH.Words()), 24);
    HashOfTwo(Concat(OPAD_0 + OPAD_8) + Concat(TEXT_HASH.Words()), OPAD_0 + OPAD_8, LAST_0 + LAST_8);
    FirstRows(OPAD_0, OPAD_8);
    FirstRows(LAST_0, LAST_8);
    OpadBlock(Concat(OPAD_0 + OPAD_8), INITIAL_HASH);
    LastBlock(Concat(LAST_0 + LAST_8), OPAD_HASH);
  }

  lemma MacDigest()
    ensures Concat(LAST_HASH.Words()) ==
      [0xB0, 0x34, 0x4C, 0x61] + [0xD8, 0xDB, 0x38, 0x53] + [0x5C, 0xA8, 0xAF, 0xCE] + [0xAF, 0x0B, 0xF1, 0x2B]
      + [0x88, 0x1D, 0xC2, 0x00] + [0xC9, 0x83, 0x3D, 0xA7] + [0x26, 0xE9, 0x37, 0x6C] + [0x2E, 0x32, 0xCF, 0xF7]
  {
    DigestIs(LAST_HASH,
             [0xB0, 0x34, 0x4C, 0x61], [0xD8, 0xDB, 0x38, 0x53], [0x5C, 0xA8, 0xAF, 0xCE], [0xAF, 0x0B, 0xF1, 0x2B],
             [0x88, 0x1D, 0xC2, 0x00], [0xC9, 0x83, 0x3D, 0xA7], [0x26, 0xE9, 0x37, 0x6C], [0x2E, 0x32, 0xCF, 0xF7]);
  }

  // Test case 1 of RFC 4231: four blocks, two of them chained to the one before.
  lemma MacOfHiThere()
    ensures Hmac(seq(20, _ => 0x0B), [0x48, 0x69, 0x20, 0x54, 0x68, 0x65, 0x72, 0x65]) ==
      [0xB0, 0x34, 0x4C, 0x61] + [0xD8, 0xDB, 0x38, 0x53] + [0x5C, 0xA8, 0xAF, 0xCE] + [0xAF, 0x0B, 0xF1, 0x2B]
      + [0x88, 0x1D, 0xC2, 0x00] + [0xC9, 0x83, 0x3D, 0xA7] + [0x26, 0xE9, 0x37, 0x6C] + [0x2E, 0x32, 0xCF, 0xF7]
  {
    PadsOfKey();
    InnerHash();
    OuterHash();
    MacDigest();
    assert seq(20, _ => 0x0B) == KEY;
  }
}
