/** The messages the driver recognises, by the bytes of their headers. */
module Messages {
  import opened Abp

  lemma CommandBit(m: Msg)
    ensures IsCommand(m) <==> m[4] & 0x40 == 0x40
  {
  }

  lemma CommandByteIs(b: bv8, command: bv8)
    requires command < 0x40
    ensures b & 0x40 == 0 && b & 0x80 == 0 && b & 0x3F == command <==> b == command
  {
  }

  // ---- the message that starts the process data -------------------------------------------------

  /** The header of a positive response to "set attribute 5 of instance 1 of object 1", without data. */
  predicate SetupAnswered(m: Msg) { m[1..] == [1, 1, 0, 0x02, 0, 5, 0] }

  lemma SetupBytes(m: Msg)
    ensures SetupAnswered(m) <==> IsSetupAck(m)
  {
    if m[5] == 0 {
      assert m[1..] == [m[1], m[2], m[3], m[4], m[5], m[6], m[7]];
      CommandByteIs(m[4], 0x02);
    } else {
      assert |m[1..]| != 7;
    }
  }

  // ---- the acknowledgement of a remap command ---------------------------------------------------

  /** A positive response to "remap write area" of object 0xFE, with two bytes of data. */
  predicate WriteAck(m: Msg) { m[1] == 0xFE && m[4] == 0x13 && m[5] == 2 }

  predicate ReadAck(m: Msg) { m[1] == 0xFE && m[4] == 0x14 && m[5] == 2 }

  /** The length in its data, low byte first. */
  function Announced(m: Msg): nat
    requires WriteAck(m) || ReadAck(m)
  {
    (m[8] as nat) + 256 * (m[9] as nat)
  }

  lemma AckBytes(m: Msg)
    ensures WriteAck(m) <==> IsRemapAck(m, REMAP_WRITE)
    ensures ReadAck(m) <==> IsRemapAck(m, REMAP_READ)
    ensures WriteAck(m) ==> Announced(m) == AckLengthValue(m, REMAP_WRITE)
    ensures ReadAck(m) ==> Announced(m) == AckLengthValue(m, REMAP_READ)
  {
    CommandByteIs(m[4], 0x13);
    CommandByteIs(m[4], 0x14);
  }

  /** What APLINK_SendMessage takes for such an acknowledgement; it does not look at bit 0x40. */
  predicate HoldsBack(m: Msg, code: bv8) { m[1] == 0xFE && (m[4] == code || m[4] == code | 0x40) && m[5] == 2 }

  lemma CodeByte(b: bv8, code: bv8)
    requires code < 0x40
    ensures b & 0x80 == 0 && b & 0x3F == code <==> b == code || b == code | 0x40
  {
  }
}
