/**
 * Model of `octo_api/utils.py`: reading ISO 8601 timestamps that use `Z`
 * for UTC, the closed enumerations of rate types and supply regions decoded
 * from their wire strings, and the meter point record.
 */
module Utils {
  import opened Wrappers
  import opened Builtins

  // ---------------------------------------------------------------------
  // from_iso_zulu

  /** The text `from_iso_zulu` hands to the parser: every `Z` becomes `+00:00`. */
  function ZuluToOffset(s: string): string {
    if s == [] then []
    else (if s[0] == 'Z' then "+00:00" else [s[0]]) + ZuluToOffset(s[1..])
  }

  lemma {:induction false} ZuluToOffsetConcat(a: string, b: string)
    ensures ZuluToOffset(a + b) == ZuluToOffset(a) + ZuluToOffset(b)
  {
    if a != [] {
      assert (a + b)[1..] == a[1..] + b;
      ZuluToOffsetConcat(a[1..], b);
    } else {
      assert a + b == b;
    }
  }

  /** After the rewrite no `Z` is left. */
  lemma {:induction false} ZuluToOffsetHasNoZ(s: string)
    ensures 'Z' !in ZuluToOffset(s)
  {
    if s != [] {
      ZuluToOffsetHasNoZ(s[1..]);
    }
  }

  /** A string without `Z` is handed over unchanged. */
  lemma {:induction false} ZuluToOffsetWithoutZ(s: string)
    ensures 'Z' !in s ==> ZuluToOffset(s) == s
  {
    if s != [] && 'Z' !in s {
      assert 'Z' !in s[1..];
      ZuluToOffsetWithoutZ(s[1..]);
    }
  }

  /** Rewriting twice is rewriting once, because `+00:00` holds no `Z`. */
  lemma ZuluToOffsetIdempotent(s: string)
    ensures ZuluToOffset(ZuluToOffset(s)) == ZuluToOffset(s)
  {
    ZuluToOffsetHasNoZ(s);
    ZuluToOffsetWithoutZ(ZuluToOffset(s));
  }

  function CountZ(s: string): nat {
    if s == [] then 0 else (if s[0] == 'Z' then 1 else 0) + CountZ(s[1..])
  }

  /** Each `Z` grows the text by five characters; every other character is kept. */
  lemma {:induction false} ZuluToOffsetLength(s: string)
    ensures |ZuluToOffset(s)| == |s| + 5 * CountZ(s)
  {
    if s != [] {
      ZuluToOffsetLength(s[1..]);
    }
  }

  /** What the attrs converters pass in: `None`, a `datetime`, or a string. */
  datatype Stamp<D> = NoStamp | Moment(moment: D) | IsoText(text: string)

  /**
   * `from_iso_zulu(the_datetime)`. `fromIsoFormat` stands for
   * `datetime.fromisoformat`; it gives `None` where that raises `ValueError`.
   */
  function FromIsoZulu<D>(theDatetime: Stamp<D>, fromIsoFormat: string -> Option<D>): (r: Result<Option<D>, PyError>)
    ensures theDatetime.NoStamp? ==> r == Ok(None)
    ensures theDatetime.Moment? ==> r == Ok(Some(theDatetime.moment))
    ensures theDatetime.IsoText? ==>
      (r.Ok? <==> fromIsoFormat(ZuluToOffset(theDatetime.text)).Some?) &&
      (r.Ok? ==> r.value == fromIsoFormat(ZuluToOffset(theDatetime.text)))
    ensures theDatetime.IsoText? && 'Z' !in theDatetime.text ==>
      (r.Ok? <==> fromIsoFormat(theDatetime.text).Some?) &&
      (r.Ok? ==> r.value == fromIsoFormat(theDatetime.text))
    ensures theDatetime.IsoText? ==> (r.Err? ==> r.error == ValueError) && (r.Ok? ==> r.value.Some?)
  {
    match theDatetime
    case NoStamp => Ok(None)
    case Moment(d) => Ok(Some(d))
    case IsoText(text) =>
      ZuluToOffsetWithoutZ(text);
      ParseRewritten(ZuluToOffset(text), fromIsoFormat)
  }

  function ParseRewritten<D>(text: string, fromIsoFormat: string -> Option<D>): Result<Option<D>, PyError> {
    match fromIsoFormat(text)
    case Some(d) => Ok(Some(d))
    case None => Err(ValueError)
  }

  /** `Z` anywhere in a timestamp means exactly what `+00:00` in its place means. */
  lemma ZuluMeansUtc<D>(before: string, after: string, fromIsoFormat: string -> Option<D>)
    ensures FromIsoZulu(IsoText(before + "Z" + after), fromIsoFormat)
         == FromIsoZulu(IsoText(before + "+00:00" + after), fromIsoFormat)
  {
    var offset := "+00:00";
    assert ZuluToOffset("Z") == offset;
    ZuluToOffsetWithoutZ(offset);
    ZuluToOffsetConcat(before + "Z", after);
    ZuluToOffsetConcat(before, "Z");
    ZuluToOffsetConcat(before + offset, after);
    ZuluToOffsetConcat(before, offset);
    assert ZuluToOffset(before + "Z" + after) == ZuluToOffset(before + offset + after);
  }

  // ---------------------------------------------------------------------
  // RateType

  /** The rate kinds, each carried on the wire as its own path segment. */
  datatype RateType = StandingCharge | StandardUnitRate | DayUnitRate | NightUnitRate {

    function Value(): string {
      match this
      case StandingCharge => "standing-charges"
      case StandardUnitRate => "standard-unit-rates"
      case DayUnitRate => "day-unit-rates"
      case NightUnitRate => "night-unit-rates"
    }
  }

  /** `RateType(value)`: the member with that value, or `ValueError`. */
  function DecodeRateType(value: string): (r: Result<RateType, PyError>)
    ensures r.Ok? ==> r.value.Value() == value
    ensures r.Err? ==> r.error == ValueError && forall t: RateType :: t.Value() != value
  {
    if value == "standing-charges" then Ok(StandingCharge)
    else if value == "standard-unit-rates" then Ok(StandardUnitRate)
    else if value == "day-unit-rates" then Ok(DayUnitRate)
    else if value == "night-unit-rates" then Ok(NightUnitRate)
    else Err(ValueError)
  }

  /** The four wire strings are distinct. */
  lemma RateTypeValueInjective(t: RateType, u: RateType)
    ensures t.Value() == u.Value() ==> t == u
  {
  }

  /** Encoding a rate type and decoding the string gives the same member. */
  lemma RateTypeRoundTrip(t: RateType)
    ensures DecodeRateType(t.Value()) == Ok(t)
  {
    RateTypeValueInjective(DecodeRateType(t.Value()).value, t);
  }

  // ---------------------------------------------------------------------
  // Region

  /**
   * The fourteen grid supply point regions. `NorthWales` has the same code as
   * `Merseyside` and so is not a member of its own: it is an alias of it.
   */
  datatype Region =
    | Eastern | EastMidlands | London | Merseyside | Midlands | NorthEastern | NorthWestern
    | Southern | SouthEastern | SouthWales | SouthWestern | Yorkshire | SouthScotland | NorthScotland
  {
    function Code(): string {
      match this
      case Eastern => "_A"
      case EastMidlands => "_B"
      case London => "_C"
      case Merseyside => "_D"
      case Midlands => "_E"
      case NorthEastern => "_F"
      case NorthWestern => "_G"
      case Southern => "_H"
      case SouthEastern => "_J"
      case SouthWales => "_K"
      case SouthWestern => "_L"
      case Yorkshire => "_M"
      case SouthScotland => "_N"
      case NorthScotland => "_P"
    }
  }

  /** `Region.NorthWales` is the very member `Region.Merseyside`. */
  const NorthWales: Region := Merseyside

  /** Iterating over the enumeration: its members in declaration order, aliases skipped. */
  function Members(): (rs: seq<Region>)
    ensures |rs| == 14
    ensures forall i, j :: 0 <= i < j < |rs| ==> rs[i] != rs[j]
  {
    [Eastern, EastMidlands, London, Merseyside, Midlands, NorthEastern, NorthWestern,
     Southern, SouthEastern, SouthWales, SouthWestern, Yorkshire, SouthScotland, NorthScotland]
  }

  /** `Region(value)`: the member with that code, or `ValueError`. */
  function DecodeRegion(value: string): (r: Result<Region, PyError>)
    ensures r.Ok? ==> r.value.Code() == value
    ensures r.Err? ==> r.error == ValueError && forall g: Region :: g.Code() != value
  {
    match value
    case "_A" => Ok(Eastern)
    case "_B" => Ok(EastMidlands)
    case "_C" => Ok(London)
    case "_D" => Ok(Merseyside)
    case "_E" => Ok(Midlands)
    case "_F" => Ok(NorthEastern)
    case "_G" => Ok(NorthWestern)
    case "_H" => Ok(Southern)
    case "_J" => Ok(SouthEastern)
    case "_K" => Ok(SouthWales)
    case "_L" => Ok(SouthWestern)
    case "_M" => Ok(Yorkshire)
    case "_N" => Ok(SouthScotland)
    case "_P" => Ok(NorthScotland)
    case _ => Err(ValueError)
  }

  /** No two regions share a code. */
  lemma RegionCodeInjective(g: Region, h: Region)
    ensures g.Code() == h.Code() ==> g == h
  {
  }

  /** Encoding a region and decoding its code gives the same member. */
  lemma RegionRoundTrip(g: Region)
    ensures DecodeRegion(g.Code()) == Ok(g)
  {
    RegionCodeInjective(DecodeRegion(g.Code()).value, g);
  }

  /** Every region is a member: `NorthWales` adds none of its own. */
  lemma MembersComplete(g: Region)
    ensures g in Members()
  {
    assert g.Eastern? || g.EastMidlands? || g.London? || g.Merseyside? || g.Midlands? || g.NorthEastern?
        || g.NorthWestern? || g.Southern? || g.SouthEastern? || g.SouthWales? || g.SouthWestern?
        || g.Yorkshire? || g.SouthScotland? || g.NorthScotland?;
  }

  /** The wire codes, in declaration order: `_A` to `_P` without `_I` or `_O`. */
  const Codes: seq<string> := ["_A", "_B", "_C", "_D", "_E", "_F", "_G", "_H", "_J", "_K", "_L", "_M", "_N", "_P"]

  /** The i-th member has the i-th code, and exactly the fourteen codes decode. */
  lemma RegionCodes()
    ensures forall i :: 0 <= i < |Members()| ==> Members()[i].Code() == Codes[i]
    ensures forall code :: DecodeRegion(code).Ok? <==> code in Codes
    ensures DecodeRegion("_I").Err? && DecodeRegion("_O").Err?
    ensures DecodeRegion("_D") == Ok(NorthWales) && DecodeRegion("_D") == Ok(Merseyside)
    ensures DecodeRegion("_C") == Ok(London)
  {
  }

  // ---------------------------------------------------------------------
  // MeterPointDetails

  /** Information about a meter point: its number, its region and its profile class. */
  datatype MeterPointDetails = MeterPointDetails(mpan: string, gsp: Region, profileClass: int)

  /** `Region(x)` on a raw JSON value: only a string can be a member's value. */
  function RegionOf(x: Json): (r: Result<Region, PyError>)
    ensures x.JStr? ==> r == DecodeRegion(x.s)
    ensures !x.JStr? ==> r == Err(ValueError)
  {
    if x.JStr? then DecodeRegion(x.s) else Err(ValueError)
  }

  /**
   * `MeterPointDetails._from_dict(octopus_dict)`. The keyword arguments are
   * evaluated in order, so a missing `mpan` is reported before anything about
   * `gsp`, and anything about `gsp` before anything about `profile_class`.
   */
  function FromDict(octopusDict: map<string, Json>): (r: Result<MeterPointDetails, PyError>)
    ensures r.Ok? <==>
      && "mpan" in octopusDict && "gsp" in octopusDict && "profile_class" in octopusDict
      && RegionOf(octopusDict["gsp"]).Ok? && Int(octopusDict["profile_class"]).Ok?
    ensures r.Ok? ==>
      && r.value.mpan == Str(octopusDict["mpan"])
      && r.value.gsp == RegionOf(octopusDict["gsp"]).value
      && r.value.profileClass == Int(octopusDict["profile_class"]).value
    ensures "mpan" !in octopusDict ==> r == Err(KeyError("mpan"))
    ensures "mpan" in octopusDict && "gsp" !in octopusDict ==> r == Err(KeyError("gsp"))
    ensures "mpan" in octopusDict && "gsp" in octopusDict && RegionOf(octopusDict["gsp"]).Err? ==> r == Err(ValueError)
    ensures "mpan" in octopusDict && "gsp" in octopusDict && RegionOf(octopusDict["gsp"]).Ok? && "profile_class" !in octopusDict ==>
      r == Err(KeyError("profile_class"))
    ensures
      ("mpan" in octopusDict && "gsp" in octopusDict && RegionOf(octopusDict["gsp"]).Ok? &&
       "profile_class" in octopusDict && Int(octopusDict["profile_class"]).Err?) ==>
      r == Err(Int(octopusDict["profile_class"]).error)
  {
    if "mpan" !in octopusDict then Err(KeyError("mpan"))
    else
      var mpan := Str(octopusDict["mpan"]);
      if "gsp" !in octopusDict then Err(KeyError("gsp"))
      else match RegionOf(octopusDict["gsp"])
        case Err(e) => Err(e)
        case Ok(gsp) =>
          if "profile_class" !in octopusDict then Err(KeyError("profile_class"))
          else match Int(octopusDict["profile_class"])
            case Err(e) => Err(e)
            case Ok(profileClass) => Ok(MeterPointDetails(mpan, gsp, profileClass))
  }

  /** The record as the meter-point endpoint sends it. */
  function ToDict(m: MeterPointDetails): map<string, Json> {
    map["mpan" := JStr(m.mpan), "gsp" := JStr(m.gsp.Code()), "profile_class" := JInt(m.profileClass)]
  }

  /** Decoding the endpoint's form of a record gives the record back. */
  lemma FromDictRoundTrip(m: MeterPointDetails)
    ensures FromDict(ToDict(m)) == Ok(m)
  {
    RegionRoundTrip(m.gsp);
  }

  /** An `mpan` sent as a number gives the same record as one sent as its decimal text. */
  lemma FromDictMpanAsNumber(m: MeterPointDetails, mpan: nat)
    requires m.mpan == IntToDecimal(mpan)
    ensures FromDict(ToDict(m)["mpan" := JInt(mpan)]) == Ok(m)
  {
    RegionRoundTrip(m.gsp);
  }

  /** A `profile_class` sent as text gives the same record as one sent as a number. */
  lemma FromDictProfileClassAsText(m: MeterPointDetails)
    ensures FromDict(ToDict(m)["profile_class" := JStr(IntToDecimal(m.profileClass))]) == Ok(m)
  {
    RegionRoundTrip(m.gsp);
    IntRoundTrip(m.profileClass);
  }

  /** The meter point of the test server: region `_H` is `Southern`. */
  lemma FromDictExample()
    ensures FromDict(map["gsp" := JStr("_H"), "mpan" := JStr("2000024512368"), "profile_class" := JInt(1)])
         == Ok(MeterPointDetails("2000024512368", Southern, 1))
  {
  }
}
