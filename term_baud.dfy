/** The baud-rate table of term.c (`speeds[]`, lines 79-111) and its lookup `conv_spd`
    (lines 118-129). Tokens are the Linux termios `Bxxx` values listed at term.c:48-77;
    they are octal there and written here in hexadecimal (octal 0000015 is 0xD,
    octal 0010002 is 0x1002). */
module BaudTable {

  const B50 := 0x1
  const B75 := 0x2
  const B110 := 0x3
  const B134 := 0x4
  const B150 := 0x5
  const B200 := 0x6
  const B300 := 0x7
  const B600 := 0x8
  const B1200 := 0x9
  const B1800 := 0xA
  const B2400 := 0xB
  const B4800 := 0xC
  const B9600 := 0xD
  const B19200 := 0xE
  const B38400 := 0xF
  const B57600 := 0x1001
  const B115200 := 0x1002
  const B230400 := 0x1003
  const B460800 := 0x1004
  const B500000 := 0x1005
  const B576000 := 0x1006
  const B921600 := 0x1007
  const B1000000 := 0x1008
  const B1152000 := 0x1009
  const B1500000 := 0x100A
  const B2000000 := 0x100B
  const B2500000 := 0x100C
  const B3000000 := 0x100D
  const B3500000 := 0x100E
  const B4000000 := 0x100F

  /** One row of `speeds[]`: a rate in baud and its termios token. */
  datatype SpeedEntry = SpeedEntry(speed: int, bspeed: int)

  /** `speeds[]`: thirty rates, then the `{0,0}` sentinel. */
  const SpeedTable: seq<SpeedEntry> := [
    SpeedEntry(50, B50),
    SpeedEntry(75, B75),
    SpeedEntry(110, B110),
    SpeedEntry(134, B134),
    SpeedEntry(150, B150),
    SpeedEntry(200, B200),
    SpeedEntry(300, B300),
    SpeedEntry(600, B600),
    SpeedEntry(1200, B1200),
    SpeedEntry(1800, B1800),
    SpeedEntry(2400, B2400),
    SpeedEntry(4800, B4800),
    SpeedEntry(9600, B9600),
    SpeedEntry(19200, B19200),
    SpeedEntry(38400, B38400),
    SpeedEntry(57600, B57600),
    SpeedEntry(115200, B115200),
    SpeedEntry(230400, B230400),
    SpeedEntry(460800, B460800),
    SpeedEntry(500000, B500000),
    SpeedEntry(576000, B576000),
    SpeedEntry(921600, B921600),
    SpeedEntry(1000000, B1000000),
    SpeedEntry(1152000, B1152000),
    SpeedEntry(1500000, B1500000),
    SpeedEntry(2000000, B2000000),
    SpeedEntry(2500000, B2500000),
    SpeedEntry(3000000, B3000000),
    SpeedEntry(3500000, B3500000),
    SpeedEntry(4000000, B4000000),
    SpeedEntry(0, 0)
  ]

  /** Index of the sentinel row. */
  const Sentinel := |SpeedTable| - 1

  /** What `conv_spd` yields: the token of the matching row, or the "Wrong speed value"
      error that `ERRX` reports before exiting. */
  datatype Conversion = Found(bspeed: int) | WrongSpeed(speed: int)

  /** A rate listed in the table (the sentinel row is not a rate). */
  ghost predicate IsTableRate(speed: int)
  {
    exists i :: 0 <= i < Sentinel && SpeedTable[i].speed == speed
  }

  /** The scan of `conv_spd` from row `k` on: the first row whose speed equals `speed`
      gives its token; passing the sentinel row (speed 0) fails. */
  function ScanFrom(speed: int, k: nat): Conversion
    requires k < |SpeedTable|
    decreases |SpeedTable| - k
  {
    if SpeedTable[k].speed == speed then Found(SpeedTable[k].bspeed)
    else if SpeedTable[k].speed == 0 || k == Sentinel then WrongSpeed(speed)
    else ScanFrom(speed, k + 1)
  }

  /** `conv_spd(speed)` as a function. */
  function Resolve(speed: int): Conversion
  {
    ScanFrom(speed, 0)
  }

  /** `conv_spd`: walks the table with a do-while loop until it finds `speed` or has
      looked at the sentinel. */
  method ConvSpd(speed: int) returns (r: Conversion)
    ensures r == Resolve(speed)
  {
    var spd := 0;        // the row the C pointer `spd` points at
    var curspeed := 0;
    while true
      invariant 0 <= spd <= Sentinel
      invariant ScanFrom(speed, spd) == Resolve(speed)
      decreases Sentinel - spd
    {
      curspeed := SpeedTable[spd].speed;
      if curspeed == speed {
        return Found(SpeedTable[spd].bspeed);
      }
      if curspeed == 0 {
        break;
      }
      spd := spd + 1;
    }
    return WrongSpeed(speed);
  }

  /** The table's rates are positive and strictly increasing up to the sentinel, whose
      speed is 0: the scan always ends at the sentinel. */
  lemma TableIsAscending()
    ensures SpeedTable[Sentinel] == SpeedEntry(0, 0)
    ensures forall i :: 0 <= i < Sentinel ==> SpeedTable[i].speed > 0
    ensures forall i :: 0 <= i < Sentinel - 1 ==> SpeedTable[i].speed < SpeedTable[i + 1].speed
  {
  }

  /** Every row's speed is below every later row's, except against the sentinel. */
  lemma {:induction false} RowsIncrease(i: nat, j: nat)
    requires i < j < Sentinel
    ensures SpeedTable[i].speed < SpeedTable[j].speed
    decreases j - i
  {
    TableIsAscending();
    if i + 1 < j {
      RowsIncrease(i + 1, j);
    }
  }

  /** At most one row matches a given speed. */
  lemma RowsAreDistinct(i: nat, j: nat)
    requires i < |SpeedTable| && j < |SpeedTable|
    requires SpeedTable[i].speed == SpeedTable[j].speed
    ensures i == j
  {
    TableIsAscending();
    if i < j && j < Sentinel {
      RowsIncrease(i, j);
    } else if j < i && i < Sentinel {
      RowsIncrease(j, i);
    }
  }

  /** Scanning from any row at or before row `i` reaches row `i` when looking for its speed. */
  lemma {:induction false} ScanReachesRow(i: nat, k: nat)
    requires k <= i < Sentinel
    ensures ScanFrom(SpeedTable[i].speed, k) == Found(SpeedTable[i].bspeed)
    decreases i - k
  {
    if k < i {
      TableIsAscending();
      RowsIncrease(k, i);
      ScanReachesRow(i, k + 1);
    }
  }

  /** For each of the thirty rates, the lookup returns that row's token. */
  lemma ResolveTableRate(i: nat)
    requires i < Sentinel
    ensures Resolve(SpeedTable[i].speed) == Found(SpeedTable[i].bspeed)
  {
    ScanReachesRow(i, 0);
  }

  /** A speed that is neither a rate of the table nor 0 is rejected from any row on. */
  lemma {:induction false} ScanRejects(speed: int, k: nat)
    requires k < |SpeedTable|
    requires !IsTableRate(speed) && speed != 0
    ensures ScanFrom(speed, k) == WrongSpeed(speed)
    decreases |SpeedTable| - k
  {
    if k < Sentinel {
      assert SpeedTable[k].speed != speed;
      TableIsAscending();
      ScanRejects(speed, k + 1);
    }
  }

  /** The lookup fails with "Wrong speed value" exactly for the speeds that are neither
      a table rate nor 0, and a token it finds is the one on the matching row. */
  lemma ResolveSpec(speed: int)
    ensures Resolve(speed).WrongSpeed? <==> !IsTableRate(speed) && speed != 0
    ensures Resolve(speed).WrongSpeed? ==> Resolve(speed).speed == speed
    ensures Resolve(speed).Found? ==>
      exists i :: 0 <= i < |SpeedTable| && SpeedTable[i] == SpeedEntry(speed, Resolve(speed).bspeed)
  {
    if IsTableRate(speed) {
      var i :| 0 <= i < Sentinel && SpeedTable[i].speed == speed;
      ResolveTableRate(i);
    } else if speed == 0 {
      ResolveZero();
      assert SpeedTable[Sentinel] == SpeedEntry(0, 0);
    } else {
      ScanRejects(speed, 0);
    }
  }

  /** The sentinel quirk: 0 matches the `{0,0}` row, so `conv_spd(0)` returns 0 and does not fail. */
  lemma ResolveZero()
    ensures Resolve(0) == Found(0)
  {
    TableIsAscending();
    ScanReachesSentinel(0);
  }

  /** Scanning for 0 passes every rate and stops on the sentinel row. */
  lemma {:induction false} ScanReachesSentinel(k: nat)
    requires k <= Sentinel
    ensures ScanFrom(0, k) == Found(0)
    decreases Sentinel - k
  {
    TableIsAscending();
    if k < Sentinel {
      ScanReachesSentinel(k + 1);
    }
  }

  /** Two rates the program is commonly run at, and the default rate 57600. */
  lemma CommonRates()
    ensures Resolve(9600) == Found(B9600) && B9600 == 0xD
    ensures Resolve(57600) == Found(B57600)
    ensures Resolve(115200) == Found(B115200) && B115200 == 0x1002
  {
    ResolveTableRate(12);
    ResolveTableRate(15);
    ResolveTableRate(16);
  }
}
