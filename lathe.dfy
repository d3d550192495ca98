/**
 * The lathe object (CAM_Lathe): its defaults and its Save/Load record of twelve values.
 * The two chuck pointers are not saved.
 */
module Lathe {
  import opened Wrappers
  import opened DataSource
  import opened Chucks

  /** The saved fields, in the order Save writes them. */
  datatype LatheRecord = LatheRecord(
    flags: u32,
    bedSwing: Real,     // swing over bed
    csSwing: Real,      // swing over cross slide
    csTravel: Real,     // cross slide travel
    carrTravel: Real,   // carriage travel
    compTravel: Real,   // compound travel
    distCenters: Real,  // distance between centers
    spBore: Real,       // spindle thru-hole diameter
    spMinRPM: int32,
    spMaxRPM: int32,
    spPower: Real,      // spindle power, watts
    tsTravel: Real)     // tailstock spindle travel

  /** What Save writes: flags, the seven dimensions, the two speeds as Uint32, power and
      tailstock travel. */
  function EncodeLathe(l: LatheRecord): (ds: Stream)
    ensures |ds| == 12
  {
    [U32(l.flags), Flt(l.bedSwing), Flt(l.csSwing), Flt(l.csTravel), Flt(l.carrTravel),
     Flt(l.compTravel), Flt(l.distCenters), Flt(l.spBore), U32(IntToU32(l.spMinRPM)),
     U32(IntToU32(l.spMaxRPM)), Flt(l.spPower), Flt(l.tsTravel)]
  }

  /** The tags of the twelve values Load reads. */
  predicate HoldsLathe(ds: Stream) {
    && |ds| >= 12 && ds[0].U32? && ds[1].Flt? && ds[2].Flt? && ds[3].Flt? && ds[4].Flt?
    && ds[5].Flt? && ds[6].Flt? && ds[7].Flt? && ds[8].U32? && ds[9].U32? && ds[10].Flt?
    && ds[11].Flt?
  }

  /** What Load reads: twelve values, each into the field Save took it from, the speeds
      cast back to `int`. */
  function DecodeLathe(ds: Stream): Option<Read<LatheRecord>> {
    var flags :- ReadU32(ds);
    var bedSwing :- ReadReal(flags.rest);
    var csSwing :- ReadReal(bedSwing.rest);
    var csTravel :- ReadReal(csSwing.rest);
    var carrTravel :- ReadReal(csTravel.rest);
    var compTravel :- ReadReal(carrTravel.rest);
    var distCenters :- ReadReal(compTravel.rest);
    var spBore :- ReadReal(distCenters.rest);
    var spMinRPM :- ReadU32(spBore.rest);
    var spMaxRPM :- ReadU32(spMinRPM.rest);
    var spPower :- ReadReal(spMaxRPM.rest);
    var tsTravel :- ReadReal(spPower.rest);
    Some(Read(LatheRecord(flags.value, bedSwing.value, csSwing.value, csTravel.value,
                          carrTravel.value, compTravel.value, distCenters.value, spBore.value,
                          U32ToInt(spMinRPM.value), U32ToInt(spMaxRPM.value), spPower.value,
                          tsTravel.value), tsTravel.rest))
  }

  /** Load takes the record iff the stream starts with twelve values of the right kinds,
      and each field from its own position. */
  lemma DecodeLatheFields(ds: Stream)
    ensures DecodeLathe(ds).Some? <==> HoldsLathe(ds)
    ensures HoldsLathe(ds) ==> DecodeLathe(ds) == Some(Read(
              LatheRecord(ds[0].n, ds[1].r, ds[2].r, ds[3].r, ds[4].r, ds[5].r, ds[6].r, ds[7].r,
                          U32ToInt(ds[8].n), U32ToInt(ds[9].n), ds[10].r, ds[11].r),
              ds[12..]))
  {
    if |ds| >= 12 {
      Advance(ds, 0); Advance(ds, 1); Advance(ds, 2); Advance(ds, 3); Advance(ds, 4);
      Advance(ds, 5); Advance(ds, 6); Advance(ds, 7); Advance(ds, 8); Advance(ds, 9);
      Advance(ds, 10); Advance(ds, 11);
    }
  }

  /** Load after Save restores every saved field, the speeds included, and leaves what
      followed the record. */
  lemma LatheRoundTrip(l: LatheRecord, rest: Stream)
    ensures DecodeLathe(EncodeLathe(l) + rest) == Some(Read(l, rest))
  {
    var ds := EncodeLathe(l) + rest;
    assert ds[12..] == rest;
    DecodeLatheFields(ds);
    IntThroughU32(l.spMinRPM);
    IntThroughU32(l.spMaxRPM);
  }

  class Lathe {
    var flags: u32
    var bedSwing: Real
    var csSwing: Real
    var csTravel: Real
    var carrTravel: Real
    var compTravel: Real
    var distCenters: Real
    var spBore: Real
    var spMinRPM: int32
    var spMaxRPM: int32
    var spPower: Real
    var spChuck: Option<Chuck>
    var tsTravel: Real
    var tsChuck: Option<Chuck>

    function Record(): LatheRecord
      reads this
    {
      LatheRecord(flags, bedSwing, csSwing, csTravel, carrTravel, compTravel, distCenters,
                  spBore, spMinRPM, spMaxRPM, spPower, tsTravel)
    }

    /** Init: no flags, the dimensions of a 9x20 lathe in metres, 170 to 1950 RPM,
        559.5 W, no chucks. */
    constructor Init()
      ensures flags == 0 && spMinRPM == 170 && spMaxRPM == 1950
      ensures spChuck == None && tsChuck == None
      ensures bedSwing == 0.22225 && csSwing == 0.127 && csTravel == 0.10795
      ensures carrTravel == 0.508 && compTravel == 0.0762 && distCenters == 0.5334
      ensures spBore == 0.02 && spPower == 559.5 && tsTravel == 0.05715
    {
      flags := 0;
      bedSwing := 0.22225;
      csSwing := 0.127;
      csTravel := 0.10795;
      carrTravel := 0.508;
      compTravel := 0.0762;
      distCenters := 0.5334;
      spBore := 0.02;
      spMinRPM := 170;
      spMaxRPM := 1950;
      spPower := 559.5;
      spChuck := None;
      tsTravel := 0.05715;
      tsChuck := None;
    }

    /** Save appends the twelve values. */
    method Save(out: Stream) returns (out': Stream)
      ensures out' == out + EncodeLathe(Record())
    {
      out' := out + [U32(flags)];
      out' := out' + [Flt(bedSwing), Flt(csSwing), Flt(csTravel), Flt(carrTravel)];
      out' := out' + [Flt(compTravel), Flt(distCenters), Flt(spBore)];
      out' := out' + [U32(IntToU32(spMinRPM)), U32(IntToU32(spMaxRPM))];
      out' := out' + [Flt(spPower), Flt(tsTravel)];
    }

    /** The first eight field assignments of Load: flags and the dimensions. */
    method AssignBed(l: LatheRecord)
      modifies this
      ensures flags == l.flags && bedSwing == l.bedSwing && csSwing == l.csSwing
      ensures csTravel == l.csTravel && carrTravel == l.carrTravel
      ensures compTravel == l.compTravel && distCenters == l.distCenters && spBore == l.spBore
      ensures spMinRPM == old(spMinRPM) && spMaxRPM == old(spMaxRPM) && spPower == old(spPower)
      ensures spChuck == old(spChuck) && tsTravel == old(tsTravel) && tsChuck == old(tsChuck)
    {
      flags := l.flags;
      bedSwing := l.bedSwing;
      csSwing := l.csSwing;
      csTravel := l.csTravel;
      carrTravel := l.carrTravel;
      compTravel := l.compTravel;
      distCenters := l.distCenters;
      spBore := l.spBore;
    }

    /** The rest of Load's assignments: the speeds, power and tailstock travel, and
        both chucks dropped. */
    method AssignSpindle(l: LatheRecord)
      modifies this
      ensures spMinRPM == l.spMinRPM && spMaxRPM == l.spMaxRPM && spPower == l.spPower
      ensures spChuck == None && tsTravel == l.tsTravel && tsChuck == None
      ensures flags == old(flags) && bedSwing == old(bedSwing) && csSwing == old(csSwing)
      ensures csTravel == old(csTravel) && carrTravel == old(carrTravel)
      ensures compTravel == old(compTravel) && distCenters == old(distCenters)
      ensures spBore == old(spBore)
    {
      spMinRPM := l.spMinRPM;
      spMaxRPM := l.spMaxRPM;
      spPower := l.spPower;
      spChuck := None;
      tsTravel := l.tsTravel;
      tsChuck := None;
    }

    /** Load reads the twelve values and drops both chucks; on a stream that does not
        hold the record it changes nothing. */
    method Load(ds: Stream) returns (rest: Option<Stream>)
      modifies this
      ensures var d := DecodeLathe(ds);
              && rest == (if d.Some? then Some(d.value.rest) else None)
              && Record() == (if d.Some? then d.value.value else old(Record()))
              && (d.Some? ==> spChuck == None && tsChuck == None)
              && (d.None? ==> spChuck == old(spChuck) && tsChuck == old(tsChuck))
    {
      var d := DecodeLathe(ds);
      if d.None? {
        return None;
      }
      AssignBed(d.value.value);
      AssignSpindle(d.value.value);
      rest := Some(d.value.rest);
    }
  }

  /** Saving a lathe and loading the result into another copies all twelve saved fields
      and leaves the second lathe without chucks. */
  method SaveThenLoad(a: Lathe, b: Lathe, tail: Stream)
    modifies b
    ensures b.Record() == old(a.Record())
    ensures b.spChuck == None && b.tsChuck == None
  {
    var ds := a.Save([]);
    assert ds == EncodeLathe(a.Record());
    LatheRoundTrip(a.Record(), tail);
    var rest := b.Load(ds + tail);
  }
}
