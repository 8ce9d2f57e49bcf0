/**
 * The seven persistent settings and their EEPROM image: Save writes them to
 * addresses 0..6, Load reads them back through loadbyte (firmware/settings.c
 * and the MkII.c copies of the same three routines).
 */
module Settings {
  import opened Bytes

  /**
   * The settings globals: stime[0], stime[1] (exposure minutes and seconds),
   * delay[0], delay[1] (pause between exposures), count (number of
   * exposures, 0 = unlimited), mlu (mirror lock-up seconds) and bright
   * (display brightness level, 0 = brightest).
   */
  datatype Config = Config(timeMin: byte, timeSec: byte, delayMin: byte, delaySec: byte,
                           count: byte, mlu: byte, bright: byte)

  /** One setting; the target of EditNum's `uint8_t *num`. */
  datatype Field = TimeMin | TimeSec | DelayMin | DelaySec | Count | Mlu | Bright

  /** The EEPROM address Save writes a field to. */
  function Address(f: Field): (a: nat)
    ensures a < 7
  {
    match f
    case TimeMin => 0
    case TimeSec => 1
    case DelayMin => 2
    case DelaySec => 3
    case Count => 4
    case Mlu => 5
    case Bright => 6
  }

  lemma AddressInjective(f: Field, g: Field)
    ensures Address(f) == Address(g) <==> f == g
  {
  }

  function Get(c: Config, f: Field): byte
  {
    match f
    case TimeMin => c.timeMin
    case TimeSec => c.timeSec
    case DelayMin => c.delayMin
    case DelaySec => c.delaySec
    case Count => c.count
    case Mlu => c.mlu
    case Bright => c.bright
  }

  /** The settings with one field replaced: `*num = v`. */
  function With(c: Config, f: Field, v: byte): (r: Config)
    ensures Get(r, f) == v
    ensures forall g :: g != f ==> Get(r, g) == Get(c, g)
    ensures v == Get(c, f) ==> r == c
  {
    match f
    case TimeMin => c.(timeMin := v)
    case TimeSec => c.(timeSec := v)
    case DelayMin => c.(delayMin := v)
    case DelaySec => c.(delaySec := v)
    case Count => c.(count := v)
    case Mlu => c.(mlu := v)
    case Bright => c.(bright := v)
  }

  /** The range limits settings.c's Load checks against. */
  const MAX := Config(99, 59, 99, 59, 99, 99, 3)

  /** settings.c's defaults for an out-of-range byte. */
  const DEFAULTS := Config(3, 0, 0, 5, 10, 0, 2)

  /** MkII.c's defaults for an erased (0xFF) byte. */
  const DEFAULTS_MK2 := Config(0, 0, 0, 0, 1, 0, 1)

  /** The value of an erased EEPROM cell. */
  const ERASED: byte := 0xFF

  /** Every field is within its limit in MAX. */
  predicate InRange(c: Config)
  {
    c.timeMin <= 99 && c.timeSec <= 59 && c.delayMin <= 99 && c.delaySec <= 59 &&
    c.count <= 99 && c.mlu <= 99 && c.bright <= 3
  }

  lemma InRangeByField(c: Config)
    ensures InRange(c) <==> forall f :: Get(c, f) <= Get(MAX, f)
  {
    if forall f :: Get(c, f) <= Get(MAX, f) {
      assert Get(c, TimeMin) <= 99 && Get(c, TimeSec) <= 59 && Get(c, DelayMin) <= 99;
      assert Get(c, DelaySec) <= 59 && Get(c, Count) <= 99 && Get(c, Mlu) <= 99 && Get(c, Bright) <= 3;
    }
  }

  /** settings.c's loadbyte on the byte read from the cell. */
  function LoadByte(stored: byte, default: byte, max: byte): (r: byte)
    ensures r <= max || r == default
  {
    if stored > max then default else stored
  }

  /** MkII.c's loadbyte: only the erased value is replaced, with no range check. */
  function LoadByteMk2(stored: byte, default: byte): (r: byte)
    ensures r != ERASED || default == ERASED
  {
    if stored == ERASED then default else stored
  }

  /** The EEPROM after Save: cells 0..6 hold the fields, in Config order. */
  function Encode(c: Config, store: seq<byte>): (r: seq<byte>)
    requires |store| >= 7
    ensures |r| == |store|
  {
    store[0 := c.timeMin][1 := c.timeSec][2 := c.delayMin][3 := c.delaySec]
         [4 := c.count][5 := c.mlu][6 := c.bright]
  }

  /** settings.c's Load, each cell checked against its MAX field. */
  function Decode(store: seq<byte>, defaults: Config): Config
    requires |store| >= 7
  {
    Config(LoadByte(store[0], defaults.timeMin, 99),
           LoadByte(store[1], defaults.timeSec, 59),
           LoadByte(store[2], defaults.delayMin, 99),
           LoadByte(store[3], defaults.delaySec, 59),
           LoadByte(store[4], defaults.count, 99),
           LoadByte(store[5], defaults.mlu, 99),
           LoadByte(store[6], defaults.bright, 3))
  }

  /** MkII.c's Load, as written. */
  function DecodeMk2(store: seq<byte>): Config
    requires |store| >= 7
  {
    Config(LoadByteMk2(store[0], 0),
           LoadByteMk2(store[1], 0),
           LoadByteMk2(store[2], 0),
           LoadByteMk2(store[3], 0),
           LoadByteMk2(store[4], 1),
           LoadByteMk2(store[5], 0),
           LoadByteMk2(store[6], 1))
  }

  /** A store whose first seven cells are erased. */
  predicate Erased(store: seq<byte>)
  {
    |store| >= 7 && forall i :: 0 <= i < 7 ==> store[i] == ERASED
  }

  /**
   * Save writes each field to its own address and leaves every other cell
   * as it was.
   */
  lemma EncodePlacesFields(c: Config, store: seq<byte>)
    requires |store| >= 7
    ensures var r := Encode(c, store);
      (forall f :: r[Address(f)] == Get(c, f)) &&
      (forall i :: 7 <= i < |store| ==> r[i] == store[i])
  {
  }

  /** Loading accepts a byte exactly when it is within the limit. */
  lemma LoadByteAccepts(stored: byte, default: byte, max: byte)
    requires default <= max
    ensures LoadByte(stored, default, max) <= max
    ensures LoadByte(stored, default, max) == stored <==> stored <= max || stored == default
  {
  }

  /** Every default is in range, so whatever the store holds, Load leaves every field in range. */
  lemma {:induction false} DecodeInRange(store: seq<byte>, defaults: Config)
    requires |store| >= 7 && InRange(defaults)
    ensures InRange(Decode(store, defaults))
  {
    LoadByteAccepts(store[0], defaults.timeMin, 99);
    LoadByteAccepts(store[1], defaults.timeSec, 59);
    LoadByteAccepts(store[2], defaults.delayMin, 99);
    LoadByteAccepts(store[3], defaults.delaySec, 59);
    LoadByteAccepts(store[4], defaults.count, 99);
    LoadByteAccepts(store[5], defaults.mlu, 99);
    LoadByteAccepts(store[6], defaults.bright, 3);
  }

  lemma DefaultsInRange()
    ensures InRange(DEFAULTS) && InRange(DEFAULTS_MK2)
  {
  }

  /** Save then Load gives back exactly the settings saved, when they are in range. */
  lemma SaveLoadRoundTrip(c: Config, store: seq<byte>, defaults: Config)
    requires |store| >= 7 && InRange(c)
    ensures Decode(Encode(c, store), defaults) == c
  {
  }

  /** An out-of-range setting does not survive: it comes back as the default. */
  lemma SaveLoadResets(c: Config, store: seq<byte>, defaults: Config, f: Field)
    requires |store| >= 7 && Get(c, f) > Get(MAX, f)
    ensures Get(Decode(Encode(c, store), defaults), f) == Get(defaults, f)
  {
  }

  /** An erased EEPROM loads the defaults: 3:00, 0:05, 10 exposures, no MLU, level 2. */
  lemma ErasedLoadsDefaults(store: seq<byte>)
    requires Erased(store)
    ensures Decode(store, DEFAULTS) == Config(3, 0, 0, 5, 10, 0, 2)
  {
  }

  /** MkII.c: an erased EEPROM loads 0:00, 0:00, one exposure, no MLU, level 1. */
  lemma ErasedLoadsDefaultsMk2(store: seq<byte>)
    requires Erased(store)
    ensures DecodeMk2(store) == Config(0, 0, 0, 0, 1, 0, 1)
  {
  }

  /**
   * MkII.c's Save then Load round-trips every setting that is not 0xFF,
   * and a setting of 0xFF comes back as its default.
   */
  lemma SaveLoadRoundTripMk2(c: Config, store: seq<byte>, f: Field)
    requires |store| >= 7
    ensures Get(DecodeMk2(Encode(c, store)), f) ==
      (if Get(c, f) == ERASED then Get(DEFAULTS_MK2, f) else Get(c, f))
  {
  }

  /**
   * MkII.c's Load, as written, passes any byte other than 0xFF through: a
   * store holding count 150 and brightness 7 loads them unchanged, out of
   * range, so the tens digit of the count is 15 and the brightness indexes
   * past the four-entry brightness table.
   */
  lemma UncheckedLoadEscapes()
    ensures var c := DecodeMk2([0, 0, 0, 0, 150, 0, 7]);
      !InRange(c) && c.count == 150 && c.count / 10 == 15 && c.bright == 7
  {
  }

  /**
   * The range-checked loader with MkII.c's defaults, which the MkII model
   * boots through: always in range, an erased store gives MkII.c's
   * defaults, and on every store that the unchecked loader already loads in
   * range the two agree.
   */
  function DecodeMk2Checked(store: seq<byte>): (c: Config)
    requires |store| >= 7
    ensures InRange(c)
    ensures Erased(store) ==> c == DEFAULTS_MK2
    ensures InRange(DecodeMk2(store)) ==> c == DecodeMk2(store)
  {
    DecodeInRange(store, DEFAULTS_MK2);
    Decode(store, DEFAULTS_MK2)
  }

  /** The EEPROM and the settings globals. */
  class Store {
    var timeMin: byte
    var timeSec: byte
    var delayMin: byte
    var delaySec: byte
    var count: byte
    var mlu: byte
    var bright: byte
    /** The EEPROM cells; only 0..6 are used. */
    const eeprom: array<byte>

    function Cfg(): Config
      reads this
    {
      Config(timeMin, timeSec, delayMin, delaySec, count, mlu, bright)
    }

    /** The globals' static initialisers over the given EEPROM. */
    constructor (eeprom: array<byte>)
      ensures this.eeprom == eeprom
      ensures Cfg() == Config(0, 0, 0, 0, 1, 0, 1)
    {
      this.eeprom := eeprom;
      timeMin, timeSec, delayMin, delaySec := 0, 0, 0, 0;
      count, mlu, bright := 1, 0, 1;
    }

    /** Save: seven byte writes, addresses 0..6 in field order. */
    method Save()
      requires eeprom.Length >= 7
      modifies eeprom
      ensures eeprom[..] == Encode(Cfg(), old(eeprom[..]))
    {
      eeprom[0] := timeMin;
      eeprom[1] := timeSec;
      eeprom[2] := delayMin;
      eeprom[3] := delaySec;
      eeprom[4] := count;
      eeprom[5] := mlu;
      eeprom[6] := bright;
    }

    /** settings.c's Load, with the given defaults. */
    method Load(defaults: Config)
      requires eeprom.Length >= 7
      modifies this
      ensures Cfg() == Decode(eeprom[..], defaults)
    {
      timeMin := LoadByte(eeprom[0], defaults.timeMin, 99);
      timeSec := LoadByte(eeprom[1], defaults.timeSec, 59);
      delayMin := LoadByte(eeprom[2], defaults.delayMin, 99);
      delaySec := LoadByte(eeprom[3], defaults.delaySec, 59);
      count := LoadByte(eeprom[4], defaults.count, 99);
      mlu := LoadByte(eeprom[5], defaults.mlu, 99);
      bright := LoadByte(eeprom[6], defaults.bright, 3);
    }

    /** MkII.c's Load, as written. */
    method LoadMk2()
      requires eeprom.Length >= 7
      modifies this
      ensures Cfg() == DecodeMk2(eeprom[..])
    {
      timeMin := LoadByteMk2(eeprom[0], 0);
      timeSec := LoadByteMk2(eeprom[1], 0);
      delayMin := LoadByteMk2(eeprom[2], 0);
      delaySec := LoadByteMk2(eeprom[3], 0);
      count := LoadByteMk2(eeprom[4], 1);
      mlu := LoadByteMk2(eeprom[5], 0);
      bright := LoadByteMk2(eeprom[6], 1);
    }

    /** A write through EditNum's pointer, or an assignment such as `stime[0] = gMin`. */
    method Put(f: Field, v: byte)
      modifies this
      ensures Cfg() == With(old(Cfg()), f, v)
    {
      match f
      case TimeMin => timeMin := v;
      case TimeSec => timeSec := v;
      case DelayMin => delayMin := v;
      case DelaySec => delaySec := v;
      case Count => count := v;
      case Mlu => mlu := v;
      case Bright => bright := v;
    }
  }
}
