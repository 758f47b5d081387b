/** The sensor control table and the sensor registers it is meant to mirror. */
module Controls {
  import opened Bytes
  import opened QueryScan

  datatype Ctrl = Ctrl(name: string, reg: nat, min: int, max: int, def: int)

  const SENSOR_BASE: nat := 0x0100

  const TABLE: seq<Ctrl> := [
    Ctrl("brightness", SENSOR_BASE + 0x22, 0, 8, 0),
    Ctrl("contrast", SENSOR_BASE + 0x23, 0, 6, 0),
    Ctrl("saturation", SENSOR_BASE + 0x24, 0, 6, 0),
    Ctrl("sharpness", SENSOR_BASE + 0x28, 0, 8, 0),
    Ctrl("quality", SENSOR_BASE + 0x2A, 0, 2, 0),
    Ctrl("ev", SENSOR_BASE + 0x25, 0, 6, 0),
    Ctrl("awb", SENSOR_BASE + 0x26, 0, 4, 0),
    Ctrl("effect", SENSOR_BASE + 0x27, 0, 8, 0),
    Ctrl("focus", SENSOR_BASE + 0x29, 0, 1, 0),
    Ctrl("flip", SENSOR_BASE + 0x2B, 0, 1, 0),
    Ctrl("mirror", SENSOR_BASE + 0x2C, 0, 1, 0)
  ]

  /** One register per control, and ranges that fit it. */
  predicate RowOk(c: Ctrl) {
    '&' !in c.name && 0 <= c.min < c.max <= 0xFF && c.min <= c.def <= c.max
  }

  predicate TableOk(t: seq<Ctrl>) {
    && (forall i | 0 <= i < |t| :: RowOk(t[i]))
    && (forall i, j | 0 <= i < j < |t| :: t[i].reg != t[j].reg)
  }

  /** `(int16_t)raw` for a 16-bit value. */
  function Int16(raw: nat): int
    requires raw <= U16_MAX
  {
    if raw < 0x8000 then raw else raw - 0x1_0000
  }

  /** What a requested value is set to. */
  function Clamped(c: Ctrl, raw: nat): int
    requires raw <= U16_MAX
  {
    var v := Int16(raw);
    if v < c.min then c.min else if v > c.max then c.max else v
  }

  predicate InRange(c: Ctrl, raw: int) {
    c.min <= raw <= c.max
  }

  /** The nearest value in range, which is what a clamp promises. */
  function Nearest(c: Ctrl, raw: int): int {
    if raw < c.min then c.min else if raw > c.max then c.max else raw
  }

  /** The clamp gives the nearest value exactly below 2^15; above, the cast turns the value
      negative and it lands on the minimum instead of the maximum. */
  lemma ClampIsNearest(c: Ctrl, raw: nat)
    requires RowOk(c) && raw <= U16_MAX
    ensures Clamped(c, raw) == Nearest(c, raw) <==> raw < 0x8000
    ensures InRange(c, Clamped(c, raw)) && (Clamped(c, raw) == raw <==> InRange(c, raw))
  {
  }

  lemma TableIsOk()
    ensures TableOk(TABLE)
  {
    hide RowOk;
    forall i | 0 <= i < |TABLE|
      ensures RowOk(TABLE[i])
    {
      TableRow(i);
    }
  }

  lemma TableRow(i: nat)
    requires i < |TABLE|
    ensures RowOk(TABLE[i])
  {
  }

  lemma FirstIsU16(q: string, key: string)
    ensures FirstU16(q, key).Some? ==> FirstU16(q, key).value <= U16_MAX
  {
  }

  lemma RowAt(t: seq<Ctrl>, i: nat, n: nat)
    requires TableOk(t) && n <= |t|
    ensures forall k | i <= k < n :: '&' !in t[k].name
  {
  }

  /** How many of the first `n` controls the query names with a usable value. */
  function Matched(t: seq<Ctrl>, q: string, n: nat): nat
    requires n <= |t|
  {
    if n == 0 then 0 else Matched(t, q, n - 1) + (if FirstU16(q, t[n - 1].name).Some? then 1 else 0)
  }

  /** The count is of the controls so named. */
  lemma {:induction false} MatchedIs(t: seq<Ctrl>, q: string, n: nat)
    requires n <= |t|
    ensures Matched(t, q, n) == |set i | 0 <= i < n && FirstU16(q, t[i].name).Some?|
  {
    hide FirstU16;
    if n > 0 {
      MatchedIs(t, q, n - 1);
      var before := set i | 0 <= i < n - 1 && FirstU16(q, t[i].name).Some?;
      var after := set i | 0 <= i < n && FirstU16(q, t[i].name).Some?;
      assert after == before + (if FirstU16(q, t[n - 1].name).Some? then {n - 1} else {});
    }
  }

  /** Some control is asked for a value outside its range. */
  predicate Refused(t: seq<Ctrl>, q: string, n: nat)
    requires n <= |t|
  {
    exists i | 0 <= i < n ::
      FirstU16(q, t[i].name).Some? && !InRange(t[i], FirstU16(q, t[i].name).value)
  }

  /** What the query leaves control `i` at: the clamped request, or what it had. */
  function Requested(c: Ctrl, q: string, before: int): int {
    match FirstU16(q, c.name)
    case Some(raw) => Clamped(c, raw)
    case None => before
  }

  /** A control's register: its value if it was ever set, else as the last initialisation left it. */
  ghost predicate Mirrors(r: nat, value: int, dirty: bool, regs: map<nat, int>, initial: map<nat, int>) {
    if dirty then r in regs && regs[r] == value
    else (r in regs <==> r in initial) && (r in regs ==> regs[r] == initial[r])
  }

  class Panel {
    const table: seq<Ctrl>
    const active: nat           // rows in use: all of them, or none in the shipped build
    const value: array<int>
    const dirty: array<bool>    // has this control ever been set
    var primed: bool
    var resolution: nat
    var regs: map<nat, int>     // the sensor's registers
    ghost var initial: map<nat, int>  // as its last initialisation left them
    ghost var written: set<nat>       // the registers ever written through the table

    ghost predicate Shape()
      reads this, value, dirty
    {
      && TableOk(table) && active <= |table|
      && value.Length == |table| && dirty.Length == |table|
      && (forall i | 0 <= i < |table| && dirty[i] :: i < active && primed)
      && (primed ==> forall i | 0 <= i < |table| :: InRange(table[i], value[i]))
    }

    ghost predicate Valid()
      reads this, value, dirty
    {
      && Shape() && Touched()
      && forall i | 0 <= i < |table| :: Mirrors(table[i].reg, value[i], dirty[i], regs, initial)
    }

    /** Exactly the controls ever set have ever been written. */
    ghost predicate Touched()
      reads this, dirty
    {
      dirty.Length == |table| && forall i | 0 <= i < |table| :: dirty[i] <==> table[i].reg in written
    }

    /** The values the page shows. */
    function Shown(): seq<int>
      reads this, value
    {
      if primed then value[..] else seq(|table|, i requires 0 <= i < |table| => table[i].def)
    }

    constructor (table: seq<Ctrl>, active: nat, regs: map<nat, int>)
      requires TableOk(table) && active <= |table|
      ensures Valid() && fresh(value) && fresh(dirty)
      ensures this.table == table && this.active == active
      ensures forall i | 0 <= i < |table| :: Shown()[i] == table[i].def && !dirty[i]
    {
      this.table, this.active, this.primed, this.resolution := table, active, false, 0;
      this.regs, this.initial, this.written := regs, regs, {};
      value := new int[|table|](i => 0);
      dirty := new bool[|table|](i => false);
    }

    method Prime()
      requires Shape()
      modifies `primed, value, dirty
      ensures Shape() && primed
      ensures Valid() <==> old(Valid())
      ensures value[..] == old(Shown()) && dirty[..] == old(dirty[..])
    {
      if primed {
        return;
      }
      var i := 0;
      while i < |table|
        invariant i <= |table| && !primed
        invariant forall j | 0 <= j < i :: value[j] == table[j].def
        invariant forall j | 0 <= j < |table| :: !dirty[j]
      {
        value[i] := table[i].def;
        dirty[i] := false;
        i := i + 1;
      }
      primed := true;
      assert value[..] == seq(|table|, i requires 0 <= i < |table| => table[i].def);
    }

    /** The driver puts every register at a value of its own choosing. */
    method SensorReset()
      modifies `regs, `initial
      ensures regs == initial
    {
      regs := *;
      initial := regs;
    }

    method WriteOne(i: nat)
      requires i < |table| && value.Length == |table|
      modifies `regs, `written
      ensures regs == old(regs)[table[i].reg := value[i] % 256] && written == old(written) + {table[i].reg}
    {
      written := written + {table[i].reg};
      regs := regs[table[i].reg := value[i] % 256];
    }

    /** Push back what was ever set, after the sensor has been initialised again. */
    method ApplyAll()
      requires Shape() && Touched() && regs == initial
      modifies `regs, `primed, `written, value, dirty
      ensures Valid() && primed && written == old(written)
      ensures value[..] == old(Shown()) && dirty[..] == old(dirty[..])
    {
      Prime();
      assert forall j | 0 <= j < |table| :: dirty[..][j] == dirty[j] && old(dirty[..])[j] == old(dirty[j]);
      var i := 0;
      while i < active
        invariant i <= active && Shape() && Touched() && primed && written == old(written)
        invariant value[..] == old(Shown()) && dirty[..] == old(dirty[..])
        invariant forall j | 0 <= j < i :: Mirrors(table[j].reg, value[j], dirty[j], regs, initial)
        invariant forall j | i <= j < |table| :: Mirrors(table[j].reg, value[j], false, regs, initial)
      {
        if dirty[i] {
          WriteOne(i);
        }
        i := i + 1;
      }
    }

    /** Every key of the query that names a control is clamped into range, kept and written. */
    method ApplyQuery(q: string) returns (applied: nat, refused: bool)
      requires Valid()
      modifies this, value, dirty
      ensures Valid() && initial == old(initial)
      ensures applied == Matched(table, q, active)
      ensures refused <==> Refused(table, q, active)
      ensures forall i | 0 <= i < active ::
        value[i] == Requested(table[i], q, old(Shown())[i]) && dirty[i] == (old(dirty[i]) || FirstU16(q, table[i].name).Some?)
      ensures forall i | active <= i < |table| :: value[i] == old(Shown())[i] && dirty[i] == old(dirty[i])
    {
      hide Valid, TableOk, Clamped, Requested, InRange, FirstU16;
      ActiveInside();
      Prime();
      ActiveInside();
      applied, refused := 0, false;
      ghost var before, wasDirty := old(Shown()), old(dirty[..]);
      var i := 0;
      while i < active
        invariant |before| == |wasDirty| == |table| && before == old(Shown()) && wasDirty == old(dirty[..])
        invariant i <= active && Valid() && primed && initial == old(initial)
        invariant applied == Matched(table, q, i)
        invariant refused <==> Refused(table, q, i)
        invariant forall j | 0 <= j < i ::
          value[j] == Requested(table[j], q, before[j]) && dirty[j] == (wasDirty[j] || FirstU16(q, table[j].name).Some?)
        invariant forall j | i <= j < |table| :: value[j] == before[j] && dirty[j] == wasDirty[j]
      {
        var found, clamped := ApplyOne(q, i);
        assert forall j | 0 <= j < |table| :: value[j] == value[..][j] && dirty[j] == dirty[..][j];
        refused := refused || clamped;
        applied := applied + if found then 1 else 0;
        i := i + 1;
      }
    }

    lemma ActiveInside()
      requires Valid()
      ensures Shape() && active <= |table| && value.Length == dirty.Length == |table|
    {
    }

    /** One control of the table, if the query names it with a usable value. */
    method ApplyOne(q: string, i: nat) returns (found: bool, clamped: bool)
      requires Valid() && primed && i < active
      modifies `regs, `written, value, dirty
      ensures Valid() && i < |table| && i < value.Length && i < dirty.Length
      ensures found <==> FirstU16(q, table[i].name).Some?
      ensures clamped <==> found && !InRange(table[i], FirstU16(q, table[i].name).value)
      ensures value[..] == old(value[..])[i := Requested(table[i], q, old(value[i]))]
      ensures dirty[..] == old(dirty[..])[i := old(dirty[i]) || found]
    {
      ActiveInside();
      RowAt(table, 0, |table|);
      hide Mirrors, TableOk, RowOk, Int16, Clamped, InRange, FirstU16;
      var raw := QueryU32(q, table[i].name);
      found, clamped := raw.Some?, false;
      if found {
        FirstIsU16(q, table[i].name);
        clamped := SetOne(i, raw.value);
      }
    }

    /** One control from one request: clamp, keep, write. */
    method SetOne(i: nat, raw: nat) returns (clamped: bool)
      requires Valid() && primed && i < active && raw <= U16_MAX
      modifies `regs, `written, value, dirty
      ensures Valid()
      ensures clamped <==> !InRange(table[i], raw)
      ensures value[..] == old(value[..])[i := Clamped(table[i], raw)] && dirty[..] == old(dirty[..])[i := true]
    {
      ClampIsNearest(table[i], raw);
      var v := Int16(raw);
      clamped := false;
      if v < table[i].min || v > table[i].max {
        v := if v < table[i].min then table[i].min else table[i].max;
        clamped := true;
      }
      value[i] := v;
      dirty[i] := true;
      WriteOne(i);
    }

    method ApplyResolution(res: nat)
      requires Valid()
      modifies this, value, dirty
      ensures Valid() && Shown() == old(Shown()) && dirty[..] == old(dirty[..]) && resolution == res
    {
      if res == resolution {
        return;
      }
      resolution := res;
      SensorReset();
      ApplyAll();
    }

    /** A recovery or a clock change: the sensor starts over, then the table is put back. */
    method Reinitialise()
      requires Valid()
      modifies this, value, dirty
      ensures Valid() && Shown() == old(Shown()) && dirty[..] == old(dirty[..]) && resolution == old(resolution)
    {
      SensorReset();
      ApplyAll();
    }

    /** Any requests, resolution changes, recoveries and clock changes, in any order. */
    method Run(steps: nat)
      requires Valid()
      modifies this, value, dirty
      ensures Valid()
      ensures forall i | 0 <= i < |table| && old(dirty[i]) :: dirty[i]
    {
      hide Mirrors, TableOk;
      for k := 0 to steps
        invariant Valid() && forall i | 0 <= i < |table| && old(dirty[i]) :: dirty[i]
      {
        var kind: nat, res: nat, q: string := *, *, *;
        ghost var marks := dirty[..];
        if kind == 0 {
          var applied, refused := ApplyQuery(q);
          assert forall i | 0 <= i < |table| && marks[i] :: dirty[i];
        } else if kind == 1 {
          ApplyResolution(res);
          assert forall i | 0 <= i < |table| && marks[i] :: dirty[..][i];
        } else {
          Reinitialise();
          assert forall i | 0 <= i < |table| && marks[i] :: dirty[..][i];
        }
      }
    }
  }
}
