/** The MxMotion driver for a 9-axis motion sensor on an I2C bus, with the bus
    replaced by the sensor's register file held in memory. */
module MxMotion {
  import opened Word16

  /** The sensor's fixed 7-bit I2C bus address. */
  const MX_MOTION_ADDR := 0x23

  /** The identity byte the Device_ID register holds on a genuine sensor. */
  const DEVICE_IDENTITY := 0x44

  /** Values written to Device_CONFIG during start-up. */
  const CONFIG_RESET := 0x02
  const CONFIG_ENABLE := 0x01

  /** Milliseconds the driver waits between the reset and the enable write. */
  const RESET_PAUSE_MS := 500

  /** Selector values of the acceleration and angular-rate readers. */
  datatype AxisType = X | Y | Z
  {
    /** The enumeration numbers its members from 0 in declaration order. */
    function Value(): (v: int)
      ensures 0 <= v < |AXES| && AXES[v] == this
    {
      match this
      case X => 0
      case Y => 1
      case Z => 2
    }
  }

  /** The axes in the order the enumeration declares them. */
  const AXES: seq<AxisType> := [X, Y, Z]

  /** Selector values of the orientation reader. */
  datatype EularType = Roll | Pitch | Yaw
  {
    /** The enumeration numbers its members from 0 in declaration order. */
    function Value(): (v: int)
      ensures 0 <= v < |EULAR_ANGLES| && EULAR_ANGLES[v] == this
    {
      match this
      case Roll => 0
      case Pitch => 1
      case Yaw => 2
    }
  }

  /** The orientation angles in the order the enumeration declares them. */
  const EULAR_ANGLES: seq<EularType> := [Roll, Pitch, Yaw]

  /** The sensor's registers. Each 16-bit channel is a low-byte register
      followed by its high-byte register. */
  datatype MotionReg =
    | DeviceId | DeviceConfig
    | RollL | RollH | PitchL | PitchH | YawL | YawH
    | GyroXL | GyroXH | GyroYL | GyroYH | GyroZL | GyroZH
    | AccelXL | AccelXH | AccelYL | AccelYH | AccelZL | AccelZH

  /** The registers in the order the enumeration declares them. */
  const DECLARED: seq<MotionReg> :=
    [ DeviceId, DeviceConfig,
      RollL, RollH, PitchL, PitchH, YawL, YawH,
      GyroXL, GyroXH, GyroYL, GyroYH, GyroZL, GyroZH,
      AccelXL, AccelXH, AccelYL, AccelYH, AccelZL, AccelZH ]

  /** Highest register address the driver uses. */
  const LAST_ADDRESS := 20

  /** The bus address of a register: the enumeration numbers its members
      consecutively from 1 in declaration order. */
  function Address(r: MotionReg): (a: int)
    ensures 1 <= a <= LAST_ADDRESS == |DECLARED|
    ensures DECLARED[a - 1] == r
  {
    match r
    case DeviceId => 1
    case DeviceConfig => 2
    case RollL => 3
    case RollH => 4
    case PitchL => 5
    case PitchH => 6
    case YawL => 7
    case YawH => 8
    case GyroXL => 9
    case GyroXH => 10
    case GyroYL => 11
    case GyroYH => 12
    case GyroZL => 13
    case GyroZH => 14
    case AccelXL => 15
    case AccelXH => 16
    case AccelYL => 17
    case AccelYH => 18
    case AccelZL => 19
    case AccelZH => 20
  }

  /** The register writes and pauses the driver sends, in order: a buffer
      written to a device address, or a pause of the calling program. The
      register address that each read first writes is not recorded. */
  datatype BusEvent =
    | WriteBuffer(device: int, buf: seq<Byte>)
    | Paused(ms: nat)

  /** One sensor as the driver sees it: its register file, indexed by register
      address (address 0 is not used by the driver), and the trace of the
      register writes and pauses the driver has sent to it. */
  class Sensor {
    const regs: array<Byte>
    var trace: seq<BusEvent>

    ghost predicate Valid()
    {
      regs.Length == LAST_ADDRESS + 1
    }

    /** A sensor whose registers hold `contents`, before the driver has
        written anything to it. */
    constructor (contents: seq<Byte>)
      requires |contents| == LAST_ADDRESS + 1
      ensures Valid() && fresh(regs)
      ensures regs[..] == contents && trace == []
    {
      regs := new Byte[LAST_ADDRESS + 1](i requires 0 <= i < |contents| => contents[i]);
      trace := [];
    }

    /** One-byte read of a register: reading the k-th register the enumeration
        declares (counted from 0) returns the cell at address k + 1. */
    function I2cRead(reg: MotionReg): (b: Byte)
      reads regs
      requires Valid()
      ensures forall k :: 0 <= k < |DECLARED| && DECLARED[k] == reg ==> b == regs[k + 1]
    {
      regs[Address(reg)]
    }

    /** One-byte write of a register: the frame [register, value] goes to the
        sensor's bus address, and the register holds the value afterwards. */
    method I2cWrite(reg: MotionReg, value: Byte)
      requires Valid()
      modifies this, regs
      ensures regs[..] == old(regs[..])[Address(reg) := value]
      ensures trace == old(trace) + [WriteBuffer(MX_MOTION_ADDR, [Address(reg), value])]
    {
      regs[Address(reg)] := value;
      trace := trace + [WriteBuffer(MX_MOTION_ADDR, [Address(reg), value])];
    }

    /** The calling program waits `ms` milliseconds; no bus traffic. */
    method Pause(ms: nat)
      modifies this
      ensures trace == old(trace) + [Paused(ms)]
    {
      trace := trace + [Paused(ms)];
    }

    /** Start-up: when Device_ID holds the identity byte, reset the sensor
        through Device_CONFIG, wait, then enable it; otherwise do nothing.
        Device_CONFIG (address 2) ends up enabled, the two writes are the only
        register writes, and no other register changes. */
    method Init()
      requires Valid()
      modifies this, regs
      ensures old(regs[1]) == DEVICE_IDENTITY ==>
                && regs[..] == old(regs[..])[2 := CONFIG_ENABLE]
                && trace == old(trace) + [ WriteBuffer(MX_MOTION_ADDR, [2, CONFIG_RESET]),
                                           Paused(RESET_PAUSE_MS),
                                           WriteBuffer(MX_MOTION_ADDR, [2, CONFIG_ENABLE]) ]
      ensures old(regs[1]) != DEVICE_IDENTITY ==>
                regs[..] == old(regs[..]) && trace == old(trace)
    {
      if I2cRead(DeviceId) == DEVICE_IDENTITY {
        I2cWrite(DeviceConfig, CONFIG_RESET);
        Pause(RESET_PAUSE_MS);
        I2cWrite(DeviceConfig, CONFIG_ENABLE);
      }
    }

    /** Orientation angle: selector 0, 1, 2 (Roll, Pitch, Yaw) gives the signed
        value of the register pair at addresses (4, 3), (6, 5), (8, 7); any
        other selector gives 0. */
    method ReadEular(axis: int) returns (out: int)
      requires Valid()
      ensures -32768 <= out <= 32767
      ensures axis == 0 ==> out == Decode(regs[4], regs[3])
      ensures axis == 1 ==> out == Decode(regs[6], regs[5])
      ensures axis == 2 ==> out == Decode(regs[8], regs[7])
      ensures !(0 <= axis <= 2) ==> out == 0
    {
      out := 0;
      match axis {
        case 0 =>
          out := SignExtend(Combine(I2cRead(RollH), I2cRead(RollL)));
        case 1 =>
          out := SignExtend(Combine(I2cRead(PitchH), I2cRead(PitchL)));
        case 2 =>
          out := SignExtend(Combine(I2cRead(YawH), I2cRead(YawL)));
        case _ =>
      }
    }

    /** Raw acceleration count: selector 0, 1, 2 (X, Y, Z) gives the signed
        value of the register pair at addresses (16, 15), (18, 17), (20, 19);
        any other selector gives 0. */
    method ReadAccel(axis: int) returns (out: int)
      requires Valid()
      ensures -32768 <= out <= 32767
      ensures axis == 0 ==> out == Decode(regs[16], regs[15])
      ensures axis == 1 ==> out == Decode(regs[18], regs[17])
      ensures axis == 2 ==> out == Decode(regs[20], regs[19])
      ensures !(0 <= axis <= 2) ==> out == 0
    {
      out := 0;
      match axis {
        case 0 =>
          out := Combine(I2cRead(AccelXH), I2cRead(AccelXL));
        case 1 =>
          out := Combine(I2cRead(AccelYH), I2cRead(AccelYL));
        case 2 =>
          out := Combine(I2cRead(AccelZH), I2cRead(AccelZL));
        case _ =>
      }
      out := SignExtend(out);
    }

    /** Raw angular-rate count: selector 0, 1, 2 (X, Y, Z) gives the signed
        value of the register pair at addresses (10, 9), (12, 11), (14, 13);
        any other selector gives 0. */
    method ReadGyro(axis: int) returns (out: int)
      requires Valid()
      ensures -32768 <= out <= 32767
      ensures axis == 0 ==> out == Decode(regs[10], regs[9])
      ensures axis == 1 ==> out == Decode(regs[12], regs[11])
      ensures axis == 2 ==> out == Decode(regs[14], regs[13])
      ensures !(0 <= axis <= 2) ==> out == 0
    {
      out := 0;
      match axis {
        case 0 =>
          out := Combine(I2cRead(GyroXH), I2cRead(GyroXL));
        case 1 =>
          out := Combine(I2cRead(GyroYH), I2cRead(GyroYL));
        case 2 =>
          out := Combine(I2cRead(GyroZH), I2cRead(GyroZL));
        case _ =>
      }
      out := SignExtend(out);
    }
  }

  /** A caller's view: a genuine sensor whose roll registers hold 0xFF38 and
      whose Z acceleration registers hold 0x0064. Start-up enables it, roll
      reads as -200 and Z acceleration as 100; an unknown selector reads 0. */
  method Scenario()
  {
    var contents := [0, DEVICE_IDENTITY, 0, 0x38, 0xFF, 0, 0, 0, 0, 0, 0,
                     0, 0, 0, 0, 0, 0, 0, 0, 0x64, 0x00];
    var sensor := new Sensor(contents);
    sensor.Init();
    assert sensor.regs[2] == CONFIG_ENABLE;
    assert |sensor.trace| == 3;
    assert sensor.regs[..] == contents[2 := CONFIG_ENABLE];
    assert sensor.regs[4] == 0xFF && sensor.regs[3] == 0x38;
    assert sensor.regs[20] == 0x00 && sensor.regs[19] == 0x64;

    var roll := sensor.ReadEular(EularType.Roll.Value());
    assert Combine(0xFF, 0x38) == 0xFF38;
    assert roll == -200;

    var accel := sensor.ReadAccel(AxisType.Z.Value());
    assert Combine(0x00, 0x64) == 0x64;
    assert accel == 100;

    var none := sensor.ReadGyro(3);
    assert none == 0;
  }
}
