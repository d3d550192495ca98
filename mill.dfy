/**
 * The mill object (CAM_Mill): its defaults and its Save/Load record of nine values.
 * The spindle chuck pointer is not saved.
 */
module Mill {
  import opened Wrappers
  import opened DataSource
  import opened Chucks

  /** The saved fields, in the order Save writes them. */
  datatype MillRecord = MillRecord(
    flags: u32,
    lenTable: Real,  // table length
    wTable: Real,    // table width
    xTravel: Real,   // longitudinal travel
    yTravel: Real,   // cross-slide travel
    zTravel: Real,   // vertical travel
    spMinRPM: int32,
    spMaxRPM: int32,
    spPower: Real)   // spindle power, watts

  /** What Save writes: flags, the five dimensions, the two speeds as Uint32, power. */
  function EncodeMill(m: MillRecord): (ds: Stream)
    ensures |ds| == 9
  {
    [U32(m.flags), Flt(m.lenTable), Flt(m.wTable), Flt(m.xTravel), Flt(m.yTravel),
     Flt(m.zTravel), U32(IntToU32(m.spMinRPM)), U32(IntToU32(m.spMaxRPM)), Flt(m.spPower)]
  }

  /** The tags of the nine values Load reads. */
  predicate HoldsMill(ds: Stream) {
    && |ds| >= 9 && ds[0].U32? && ds[1].Flt? && ds[2].Flt? && ds[3].Flt? && ds[4].Flt?
    && ds[5].Flt? && ds[6].U32? && ds[7].U32? && ds[8].Flt?
  }

  /** What Load reads: nine values in Save's order, the speeds cast back to `int`. */
  function DecodeMill(ds: Stream): Option<Read<MillRecord>> {
    var flags :- ReadU32(ds);
    var lenTable :- ReadReal(flags.rest);
    var wTable :- ReadReal(lenTable.rest);
    var xTravel :- ReadReal(wTable.rest);
    var yTravel :- ReadReal(xTravel.rest);
    var zTravel :- ReadReal(yTravel.rest);
    var spMinRPM :- ReadU32(zTravel.rest);
    var spMaxRPM :- ReadU32(spMinRPM.rest);
    var spPower :- ReadReal(spMaxRPM.rest);
    Some(Read(MillRecord(flags.value, lenTable.value, wTable.value, xTravel.value, yTravel.value,
                         zTravel.value, U32ToInt(spMinRPM.value), U32ToInt(spMaxRPM.value),
                         spPower.value), spPower.rest))
  }

  /** Load takes the record iff the stream starts with nine values of the right kinds,
      and each field from its own position. */
  lemma DecodeMillFields(ds: Stream)
    ensures DecodeMill(ds).Some? <==> HoldsMill(ds)
    ensures HoldsMill(ds) ==> DecodeMill(ds) == Some(Read(
              MillRecord(ds[0].n, ds[1].r, ds[2].r, ds[3].r, ds[4].r, ds[5].r,
                         U32ToInt(ds[6].n), U32ToInt(ds[7].n), ds[8].r),
              ds[9..]))
  {
    if |ds| >= 9 {
      Advance(ds, 0); Advance(ds, 1); Advance(ds, 2); Advance(ds, 3); Advance(ds, 4);
      Advance(ds, 5); Advance(ds, 6); Advance(ds, 7); Advance(ds, 8);
    }
  }

  /** Load after Save restores all nine fields and leaves what followed the record. */
  lemma MillRoundTrip(m: MillRecord, rest: Stream)
    ensures DecodeMill(EncodeMill(m) + rest) == Some(Read(m, rest))
  {
    var ds := EncodeMill(m) + rest;
    assert ds[9..] == rest;
    DecodeMillFields(ds);
    IntThroughU32(m.spMinRPM);
    IntThroughU32(m.spMaxRPM);
  }

  class Mill {
    var flags: u32
    var lenTable: Real
    var wTable: Real
    var xTravel: Real
    var yTravel: Real
    var zTravel: Real
    var spMinRPM: int32
    var spMaxRPM: int32
    var spPower: Real
    var spChuck: Option<Chuck>

    function Record(): MillRecord
      reads this
    {
      MillRecord(flags, lenTable, wTable, xTravel, yTravel, zTravel, spMinRPM, spMaxRPM, spPower)
    }

    /** Init: no flags, the table and travels of a Rong-Fu mill, 110 to 1920 RPM,
        1492 W, no chuck. */
    constructor Init()
      ensures flags == 0 && spMinRPM == 110 && spMaxRPM == 1920 && spChuck == None
      ensures lenTable == 800.1 && wTable == 241.3 && xTravel == 539.75
      ensures yTravel == 215.9 && zTravel == 431.8 && spPower == 1492.0
    {
      flags := 0;
      lenTable := 800.1;
      wTable := 241.3;
      xTravel := 539.75;
      yTravel := 215.9;
      zTravel := 431.8;
      spMinRPM := 110;
      spMaxRPM := 1920;
      spPower := 1492.0;
      spChuck := None;
    }

    /** Save appends the nine values. */
    method Save(out: Stream) returns (out': Stream)
      ensures out' == out + EncodeMill(Record())
    {
      out' := out + [U32(flags)];
      out' := out' + [Flt(lenTable), Flt(wTable), Flt(xTravel), Flt(yTravel), Flt(zTravel)];
      out' := out' + [U32(IntToU32(spMinRPM)), U32(IntToU32(spMaxRPM))];
      out' := out' + [Flt(spPower)];
    }

    /** Load reads the nine values and drops the chuck; on a stream that does not hold
        the record it changes nothing. */
    method Load(ds: Stream) returns (rest: Option<Stream>)
      modifies this
      ensures var d := DecodeMill(ds);
              && rest == (if d.Some? then Some(d.value.rest) else None)
              && Record() == (if d.Some? then d.value.value else old(Record()))
              && spChuck == (if d.Some? then None else old(spChuck))
    {
      var d := DecodeMill(ds);
      if d.None? {
        return None;
      }
      var m := d.value.value;
      flags := m.flags;
      lenTable := m.lenTable;
      wTable := m.wTable;
      xTravel := m.xTravel;
      yTravel := m.yTravel;
      zTravel := m.zTravel;
      spMinRPM := m.spMinRPM;
      spMaxRPM := m.spMaxRPM;
      spPower := m.spPower;
      spChuck := None;
      rest := Some(d.value.rest);
    }
  }

  /** Saving a mill and loading the result into another copies all nine saved fields
      and leaves the second mill without a chuck. */
  method SaveThenLoad(a: Mill, b: Mill, tail: Stream)
    modifies b
    ensures b.Record() == old(a.Record())
    ensures b.spChuck == None
  {
    var ds := a.Save([]);
    assert ds == EncodeMill(a.Record());
    MillRoundTrip(a.Record(), tail);
    var rest := b.Load(ds + tail);
  }
}
