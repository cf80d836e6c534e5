/** `con_sig` (term.c:233-238): what one byte typed on the console makes the program do. */
module Console {

  /** The three reactions: nothing, `term_quit(status)`, or writing one byte to the device. */
  datatype ConAction = Ignore | Quit(status: int) | Send(cmd: bv8)

  /** `(char) rb`: the low eight bits of `rb`. */
  function ToChar(rb: int): (c: bv8)
  {
    (rb % 256) as bv8
  }

  /** The reaction to `rb`, which is -1 or less when nothing was read. */
  function ConSig(rb: int): (a: ConAction)
  {
    if rb < 1 then Ignore
    else if rb == 'q' as int then Quit(0)
    else Send(ToChar(rb))
  }

  /** The bytes written to the device for an action. */
  function DeviceBytes(a: ConAction): seq<bv8>
  {
    match a
    case Ignore => []
    case Quit(_) => []
    case Send(c) => [c]
  }

  /** Nothing happens for `rb < 1`; `q` quits with status 0 and writes nothing; every other
      value writes exactly one byte, `(char) rb`, and does not quit. */
  lemma ConSigSpec(rb: int)
    ensures ConSig(rb) == Ignore <==> rb < 1
    ensures ConSig(rb).Quit? <==> rb == 'q' as int
    ensures ConSig(rb).Quit? ==> ConSig(rb).status == 0
    ensures |DeviceBytes(ConSig(rb))| == if rb >= 1 && rb != 'q' as int then 1 else 0
    ensures rb >= 1 && rb != 'q' as int ==> DeviceBytes(ConSig(rb)) == [ToChar(rb)]
  {
  }

  /** A byte value read from the console (1..255) reaches the device unchanged. */
  lemma {:induction false} SentByteIsTyped(rb: int)
    requires 1 <= rb < 256 && rb != 'q' as int
    ensures ConSig(rb) == Send(rb as bv8)
    ensures (DeviceBytes(ConSig(rb))[0] as int) == rb
  {
    assert rb % 256 == rb;
  }
}
