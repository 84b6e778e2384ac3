/** The user type that persists an `OffsetTime` as a timestamp, and the two
    zone settings of its column mapper that its `databaseZone` and `javaZone`
    parameters configure. A value of "jvm" stands for the zone of the JVM,
    which the mapper represents by null. */
module OffsetTimeType {
  import opened Results
  import opened JavaLang

  /** A fixed offset from UTC. */
  datatype ZoneOffset = ZoneOffset(totalSeconds: int)

  /** `ZoneOffset.of`: the offset an id denotes, or None where the library
      throws `IllegalArgumentException`. */
  type ZoneOffsetParser = string -> Option<ZoneOffset>

  /** `java.util.Properties`, as a map from keys to string values. */
  type Properties = map<string, string>

  /** `getProperty(key)`: the value, or null when the key is absent. */
  function GetProperty(p: Properties, key: string): (v: Option<string>)
    ensures v.Some? <==> key in p
    ensures v.Some? ==> v.value == p[key]
  {
    if key in p then Some(p[key]) else None
  }

  const JVM_ZONE := "jvm"

  /** The column mapper's two zone settings; None is the JVM's zone. */
  class TimestampColumnOffsetTimeMapper {
    var databaseZone: Option<ZoneOffset>
    var javaZone: Option<ZoneOffset>

    constructor (databaseZone: Option<ZoneOffset>, javaZone: Option<ZoneOffset>)
      ensures this.databaseZone == databaseZone && this.javaZone == javaZone
    {
      this.databaseZone := databaseZone;
      this.javaZone := javaZone;
    }

    method SetDatabaseZone(zone: Option<ZoneOffset>)
      modifies this
      ensures databaseZone == zone && javaZone == old(javaZone)
    {
      databaseZone := zone;
    }

    method SetJavaZone(zone: Option<ZoneOffset>)
      modifies this
      ensures javaZone == zone && databaseZone == old(databaseZone)
    {
      javaZone := zone;
    }
  }

  /** Both zone settings at once. */
  datatype Zones = Zones(databaseZone: Option<ZoneOffset>, javaZone: Option<ZoneOffset>)

  /** What one zone property does to its setting: absent leaves it, "jvm"
      clears it, any other value is parsed by `ZoneOffset.of`, which may throw. */
  function ZoneSetting(current: Option<ZoneOffset>, property: Option<string>, zoneOf: ZoneOffsetParser)
    : Result<Option<ZoneOffset>, Throwable>
  {
    match property
    case None => Success(current)
    case Some(id) =>
      if id == JVM_ZONE then Success(None)
      else match zoneOf(id)
        case None => Failure(IllegalArgument(id))
        case Some(offset) => Success(Some(offset))
  }

  /** The settings after `setParameterValues`, and whether it threw:
      `databaseZone` is applied first, then `javaZone`, and an exception from
      the second undoes nothing of the first. */
  function ConfiguredZones(before: Zones, parameters: Option<Properties>, zoneOf: ZoneOffsetParser)
    : (Zones, Outcome<Throwable>)
  {
    match parameters
    case None => (before, Pass)
    case Some(p) =>
      match ZoneSetting(before.databaseZone, GetProperty(p, "databaseZone"), zoneOf)
      case Failure(e) => (before, Fail(e))
      case Success(db) =>
        var afterDatabase := before.(databaseZone := db);
        match ZoneSetting(before.javaZone, GetProperty(p, "javaZone"), zoneOf)
        case Failure(e) => (afterDatabase, Fail(e))
        case Success(jz) => (afterDatabase.(javaZone := jz), Pass)
  }

  class PersistentOffsetTimeAsTimestamp {
    /** The mapper `getColumnMapper()` returns. */
    const columnMapper: TimestampColumnOffsetTimeMapper

    constructor (columnMapper: TimestampColumnOffsetTimeMapper)
      ensures this.columnMapper == columnMapper
    {
      this.columnMapper := columnMapper;
    }

    function MapperZones(): Zones
      reads columnMapper
    {
      Zones(columnMapper.databaseZone, columnMapper.javaZone)
    }

    /** `setParameterValues`: applies the `databaseZone` and then the
        `javaZone` property to the column mapper. */
    method SetParameterValues(parameters: Option<Properties>, zoneOf: ZoneOffsetParser)
      returns (outcome: Outcome<Throwable>)
      modifies columnMapper
      ensures (MapperZones(), outcome) == ConfiguredZones(old(MapperZones()), parameters, zoneOf)
    {
      if parameters.Some? {
        var mapper := columnMapper;

        var databaseZone := GetProperty(parameters.value, "databaseZone");
        if databaseZone.Some? {
          if JVM_ZONE == databaseZone.value {
            mapper.SetDatabaseZone(None);
          } else {
            var offset := zoneOf(databaseZone.value);
            if offset.None? {
              return Fail(IllegalArgument(databaseZone.value));
            }
            mapper.SetDatabaseZone(offset);
          }
        }
        var javaZone := GetProperty(parameters.value, "javaZone");
        if javaZone.Some? {
          if JVM_ZONE == javaZone.value {
            mapper.SetJavaZone(None);
          } else {
            var offset := zoneOf(javaZone.value);
            if offset.None? {
              return Fail(IllegalArgument(javaZone.value));
            }
            mapper.SetJavaZone(offset);
          }
        }
      }
      return Pass;
    }
  }

  /** Null parameters change nothing. */
  lemma NullParametersChangeNothing(before: Zones, zoneOf: ZoneOffsetParser)
    ensures ConfiguredZones(before, None, zoneOf) == (before, Pass)
  {
  }

  /** The three cases of one zone property. */
  lemma ZoneSettingCases(current: Option<ZoneOffset>, property: Option<string>, zoneOf: ZoneOffsetParser)
    ensures property.None? ==> ZoneSetting(current, property, zoneOf) == Success(current)
    ensures property == Some(JVM_ZONE) ==> ZoneSetting(current, property, zoneOf) == Success(None)
    ensures property.Some? && property.value != JVM_ZONE ==>
      (ZoneSetting(current, property, zoneOf).Success? <==> zoneOf(property.value).Some?)
    ensures property.Some? && property.value != JVM_ZONE && zoneOf(property.value).Some? ==>
      ZoneSetting(current, property, zoneOf) == Success(zoneOf(property.value))
  {
  }

  /** The database zone ends up as its own property says, whatever the
      `javaZone` property holds; when it cannot be parsed the call throws
      before either zone changes. */
  lemma DatabaseZoneIndependent(before: Zones, p: Properties, zoneOf: ZoneOffsetParser)
    ensures var db := ZoneSetting(before.databaseZone, GetProperty(p, "databaseZone"), zoneOf);
      && (db.Success? ==> ConfiguredZones(before, Some(p), zoneOf).0.databaseZone == db.value)
      && (db.Failure? ==> ConfiguredZones(before, Some(p), zoneOf) == (before, Fail(db.error)))
  {
  }

  /** The Java zone ends up as its own property says, once the
      `databaseZone` property has been applied without an exception. */
  lemma JavaZoneIndependent(before: Zones, p: Properties, zoneOf: ZoneOffsetParser)
    requires ZoneSetting(before.databaseZone, GetProperty(p, "databaseZone"), zoneOf).Success?
    ensures var db := ZoneSetting(before.databaseZone, GetProperty(p, "databaseZone"), zoneOf).value;
      var jz := ZoneSetting(before.javaZone, GetProperty(p, "javaZone"), zoneOf);
      && (jz.Success? ==> ConfiguredZones(before, Some(p), zoneOf) == (Zones(db, jz.value), Pass))
      && (jz.Failure? ==> ConfiguredZones(before, Some(p), zoneOf) == (Zones(db, before.javaZone), Fail(jz.error)))
  {
  }

  /** There is no rollback: when `javaZone` cannot be parsed, the database zone
      already set from `databaseZone` stays set and the call throws. */
  lemma NoRollback(before: Zones, p: Properties, zoneOf: ZoneOffsetParser, dbId: string, javaId: string)
    requires GetProperty(p, "databaseZone") == Some(dbId) && dbId != JVM_ZONE && zoneOf(dbId).Some?
    requires GetProperty(p, "javaZone") == Some(javaId) && javaId != JVM_ZONE && zoneOf(javaId).None?
    ensures ConfiguredZones(before, Some(p), zoneOf) ==
      (Zones(zoneOf(dbId), before.javaZone), Fail(IllegalArgument(javaId)))
  {
  }
}
