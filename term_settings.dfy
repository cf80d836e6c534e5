/** The raw-mode line settings `tty_init` builds from the current ones (term.c:157-162).
    The record is Linux's `struct termio`: four 16-bit flag words, the line discipline
    byte and `NCC` = 8 control characters. Flag values are Linux's (asm-generic termbits). */
module TtySettings {
  import BaudTable

  const NCC := 8
  /** Indices into `c_cc` of the read timeout and the minimum byte count. */
  const VTIME := 5
  const VMIN := 6

  const CBAUD: bv16 := 0x100F     // octal 0010017
  const CSIZE: bv16 := 0x30       // octal 0000060
  const CS8: bv16 := 0x30         // octal 0000060
  const CREAD: bv16 := 0x80       // octal 0000200
  const CLOCAL: bv16 := 0x800     // octal 0004000

  /** `BAUD_RATE` (term.c:42): the speed `tty_init` writes into `c_cflag`. */
  const BaudRate: bv16 := 0x1002     // B115200, octal 0010002

  type ControlChars = s: seq<bv8> | |s| == NCC witness [0, 0, 0, 0, 0, 0, 0, 0]

  datatype Termio = Termio(
    c_iflag: bv16,
    c_oflag: bv16,
    c_cflag: bv16,
    c_lflag: bv16,
    c_line: bv8,
    c_cc: ControlChars)

  /** `tty = oldtty` followed by the field overwrites: no local modes (no canonical input,
      echo or signals), no output processing, 8 data bits with the receiver on and modem
      lines ignored at `baud`, and non-blocking reads that time out after half a second. */
  function MakeRaw(prev: Termio, baud: bv16): (t: Termio)
    ensures t.c_iflag == prev.c_iflag && t.c_line == prev.c_line
    ensures t.c_lflag == 0 && t.c_oflag == 0
    ensures t.c_cflag == baud | CS8 | CREAD | CLOCAL
    ensures t.c_cc[VMIN] == 0 && t.c_cc[VTIME] == 5
    ensures forall k :: 0 <= k < NCC && k != VMIN && k != VTIME ==> t.c_cc[k] == prev.c_cc[k]
  {
    prev.(c_lflag := 0, c_oflag := 0, c_cflag := baud | CS8 | CREAD | CLOCAL,
         c_cc := prev.c_cc[VMIN := 0][VTIME := 5])
  }

  /** The settings `tty_init` applies, with the revision's fixed `BAUD_RATE`. */
  function TtyInitSettings(prev: Termio): Termio
  {
    MakeRaw(prev, BaudRate)
  }

  /** A termios speed token fits in the `CBAUD` bits. */
  predicate IsBaudField(baud: bv16)
  {
    baud & CBAUD == baud
  }

  /** The token values Linux defines: octal 01-017 and 010001-010017. */
  predicate IsTokenValue(b: bv16)
  {
    1 <= b <= 0xF || 0x1001 <= b <= 0x100F
  }

  /** Every token value fits in the `CBAUD` bits. */
  lemma TokenValuesAreBaudFields(b: bv16)
    requires IsTokenValue(b)
    ensures IsBaudField(b)
  {
  }

  /** Every token of the baud table is one of those values. */
  lemma TableTokensAreTokenValues(i: nat)
    requires i < BaudTable.Sentinel
    ensures 1 <= BaudTable.SpeedTable[i].bspeed <= 0xF || 0x1001 <= BaudTable.SpeedTable[i].bspeed <= 0x100F
  {
  }

  /** The speed and the character size can be read back from the new `c_cflag`: its
      `CBAUD` bits are the requested speed, its `CSIZE` bits are `CS8`, and the receiver
      and local-line bits are set. */
  lemma CflagDecodes(prev: Termio, baud: bv16)
    requires IsBaudField(baud)
    ensures MakeRaw(prev, baud).c_cflag & CBAUD == baud
    ensures MakeRaw(prev, baud).c_cflag & CSIZE == CS8
    ensures MakeRaw(prev, baud).c_cflag & CREAD == CREAD
    ensures MakeRaw(prev, baud).c_cflag & CLOCAL == CLOCAL
  {
  }

  /** The settings depend on the old ones only through the fields they keep: applying the
      change to its own result changes nothing. */
  lemma MakeRawIdempotent(prev: Termio, baud: bv16)
    ensures MakeRaw(MakeRaw(prev, baud), baud) == MakeRaw(prev, baud)
  {
    assert MakeRaw(MakeRaw(prev, baud), baud).c_cc == MakeRaw(prev, baud).c_cc;
  }

  /** Two old settings that agree on the kept fields give the same new settings. */
  lemma MakeRawKeepsOnly(a: Termio, b: Termio, baud: bv16)
    requires a.c_iflag == b.c_iflag && a.c_line == b.c_line
    requires forall k :: 0 <= k < NCC && k != VMIN && k != VTIME ==> a.c_cc[k] == b.c_cc[k]
    ensures MakeRaw(a, baud) == MakeRaw(b, baud)
  {
    assert MakeRaw(a, baud).c_cc == MakeRaw(b, baud).c_cc;
  }

  /** With this revision's `BAUD_RATE` the line runs at 115200 baud. */
  lemma TtyInitRunsAt115200(prev: Termio)
    ensures TtyInitSettings(prev).c_cflag & CBAUD == BaudRate
    ensures BaudTable.Resolve(115200) == BaudTable.Found(BaudRate as int)
  {
    BaudTable.CommonRates();
    TokenValuesAreBaudFields(BaudRate);
    CflagDecodes(prev, BaudRate);
  }
}
