/** The boot console of src/Bsp/Src/serial.c: until a device is registered, characters go to an overwriting ring of
    256 bytes; registering a device drains the ring to it first. */
module Console {
  import opened Div64
  import opened Clock
  import opened Kfifo
  import opened Options

  const CONSOLE_BUFFER_SIZE := 256

  /** A serial device that has been opened; its output so far. */
  class Device {
    var sent: seq<bv8>

    constructor ()
      ensures sent == []
    {
      sent := [];
    }

    method SendByte(ch: bv8)
      modifies this
      ensures sent == old(sent) + [ch]
    {
      sent := sent + [ch];
    }
  }

  lemma ConsoleRing()
    ensures RingSize(CONSOLE_BUFFER_SIZE)
  {
    assert Pow2(8) == 256;
  }

  /** Keeping the last n bytes one byte at a time keeps the last n bytes of all of them. */
  lemma LastOfLast(s: seq<bv8>, c: bv8, n: nat)
    ensures LastBytes(LastBytes(s, n) + [c], n) == LastBytes(s + [c], n)
  {
  }

  lemma NothingKept()
    ensures LastBytes([], CONSOLE_BUFFER_SIZE) == []
  {
  }

  class Console {
    var device: Device?
    var fifo: Ring?
    // every character written while no device was registered, since the ring was last drained
    ghost var boot: seq<bv8>

    ghost predicate Valid()
      reads this, fifo, if fifo != null then {fifo.buffer} else {}
    {
      if fifo == null then boot == []
      else
        fifo.Valid() && fifo.buffer.Length == CONSOLE_BUFFER_SIZE &&
        fifo.Contents() == LastBytes(boot, CONSOLE_BUFFER_SIZE)
    }

    ghost function Frame(): set<object>
      reads this
    {
      {this} + (if fifo != null then {fifo, fifo.buffer} else {}) + if device != null then {device} else {}
    }

    constructor ()
      ensures Valid() && device == null && fifo == null && boot == []
    {
      device, fifo, boot := null, null, [];
    }

    /** console_alloc_kfifo. */
    method AllocFifo()
      requires Valid()
      modifies this`fifo
      ensures Valid() && fifo != null && device == old(device) && boot == old(boot)
      ensures old(fifo) != null ==> fifo == old(fifo)
      ensures old(fifo) == null ==> fresh(fifo) && fresh(fifo.buffer)
    {
      if fifo == null {
        ConsoleRing();
        var storage := new bv8[CONSOLE_BUFFER_SIZE];
        fifo := new Ring(storage);
      }
    }

    /** console_putc: to the device if there is one, else to the ring. */
    method PutC(ch: bv8)
      requires Valid()
      modifies Frame()
      ensures Valid() && device == old(device)
      ensures old(fifo) != null ==> fifo == old(fifo)
      ensures old(fifo) == null && fifo != null ==> fresh(fifo) && fresh(fifo.buffer)
      ensures device != null ==> device.sent == old(device.sent) + [ch] && boot == old(boot)
      ensures device == null ==> fifo != null && boot == old(boot) + [ch]
    {
      hide Ring.Contents, Ring.Valid, LastBytes, RingSize;
      if device != null {
        device.SendByte(ch);
      } else {
        if fifo == null {
          AllocFifo();
        }
        fifo.PutC(ch);
        LastOfLast(boot, ch, CONSOLE_BUFFER_SIZE);
        boot := boot + [ch];
      }
    }

    /** console_putstring. */
    method PutString(text: seq<bv8>)
      requires Valid()
      modifies Frame()
      ensures Valid() && device == old(device)
      ensures device != null ==> device.sent == old(device.sent) + text && boot == old(boot)
      ensures device == null ==> boot == old(boot) + text
    {
      hide Ring.Contents, Ring.Valid, RingSize, LastBytes;
      var i := 0;
      while i < |text|
        invariant 0 <= i <= |text| && Valid() && device == old(device)
        invariant old(fifo) != null ==> fifo == old(fifo)
        invariant old(fifo) == null && fifo != null ==> fresh(fifo) && fresh(fifo.buffer)
        invariant device != null ==> device.sent == old(device.sent) + text[..i] && boot == old(boot)
        invariant device == null ==> boot == old(boot) + text[..i]
      {
        PutC(text[i]);
        assert text[..i + 1] == text[..i] + [text[i]];
        i := i + 1;
      }
      assert text[..|text|] == text;
    }

    /** register_console: what the ring holds goes to the new device, in order, before anything else. */
    method Register(dev: Device?)
      requires Valid()
      modifies Frame(), dev
      ensures Valid() && device == dev && fifo == old(fifo)
      ensures dev != null ==> dev.sent == old(dev.sent) + LastBytes(old(boot), 256) && boot == []
      ensures dev == null ==> boot == old(boot)
    {
      hide Ring.Contents, Ring.Valid, RingSize, LastBytes;
      device := dev;
      if fifo != null && device != null {
        ghost var rest := fifo.Contents();
        ghost var before := dev.sent;
        var ch := fifo.GetC();
        while ch.Some?
          invariant device == dev && fifo == old(fifo) && fifo.Valid() && fifo.buffer.Length == CONSOLE_BUFFER_SIZE
          invariant dev.sent + (if ch.Some? then [ch.value] else []) + fifo.Contents() == before + rest
          invariant ch.None? ==> fifo.Contents() == []
          decreases ch.Some?, |fifo.Contents()|
        {
          dev.SendByte(ch.value);
          ch := fifo.GetC();
        }
        assert dev.sent == before + rest;
        boot := [];
        NothingKept();
      }
    }
  }
}
