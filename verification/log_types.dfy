/**
 * Log levels and log-info flags.
 *
 * Levels are NSInteger values: eight consecutive concrete levels from Emergency (-5, most severe)
 * to Debug (2, least severe), bounded by the sentinels None (the smallest NSInteger) and
 * Any (the largest). Info flags are NSUInteger bit masks, one bit per kind of information.
 */
module LogTypes {

  /** NSInteger on a 64-bit platform. */
  newtype Level = x: int | -0x8000_0000_0000_0000 <= x < 0x8000_0000_0000_0000

  /** Used as maxLogLevel to switch logging off altogether. */
  const LevelNone: Level := -0x8000_0000_0000_0000
  const LevelEmergency: Level := -5
  const LevelAlert: Level := -4
  const LevelCritical: Level := -3
  const LevelError: Level := -2
  const LevelWarning: Level := -1
  const LevelNotice: Level := 0
  const LevelInfo: Level := 1
  const LevelDebug: Level := 2
  /** Used as maxLogLevel to log messages of any level. */
  const LevelAny: Level := 0x7FFF_FFFF_FFFF_FFFF

  /** The concrete levels, most severe first. */
  const ConcreteLevels: seq<Level> :=
    [LevelEmergency, LevelAlert, LevelCritical, LevelError, LevelWarning, LevelNotice, LevelInfo, LevelDebug]

  predicate IsConcrete(level: Level)
  {
    level in ConcreteLevels
  }

  /** The concrete levels are the consecutive integers -5 .. 2, in order of decreasing severity. */
  lemma ConcreteLevelsAreConsecutive()
    ensures |ConcreteLevels| == 8
    ensures forall i :: 0 <= i < |ConcreteLevels| ==> ConcreteLevels[i] as int == i - 5
    ensures forall i, j :: 0 <= i < j < |ConcreteLevels| ==> ConcreteLevels[i] < ConcreteLevels[j]
  {
  }

  /** A level is concrete exactly when it lies between Emergency and Debug. */
  lemma ConcreteIsRange(level: Level)
    ensures IsConcrete(level) <==> LevelEmergency <= level <= LevelDebug
  {
    if LevelEmergency <= level <= LevelDebug {
      assert ConcreteLevels[level as int + 5] == level;
    }
  }

  /** None lies strictly below and Any strictly above every concrete level; no level lies outside them. */
  lemma SentinelsAreExtremes(level: Level)
    ensures IsConcrete(level) ==> LevelNone < level < LevelAny
    ensures LevelNone <= level <= LevelAny
  {
  }

  /** NSUInteger on a 64-bit platform. */
  type InfoMask = bv64

  const InfoFunction: InfoMask := 1 << 0
  const InfoFile: InfoMask := 1 << 1
  const InfoLine: InfoMask := 1 << 2
  const InfoModule: InfoMask := 1 << 3
  const InfoProcessName: InfoMask := 1 << 4
  const InfoProcessID: InfoMask := 1 << 5
  const InfoDate: InfoMask := 1 << 6
  const InfoDeviceName: InfoMask := 1 << 7
  const InfoDeviceModel: InfoMask := 1 << 8
  const InfoSystemName: InfoMask := 1 << 9
  const InfoSystemVersion: InfoMask := 1 << 10
  const InfoLoggerName: InfoMask := 1 << 11
  const InfoLevel: InfoMask := 1 << 12
  const InfoMessage: InfoMask := 1 << 13
  const InfoError: InfoMask := 1 << 14
  const InfoException: InfoMask := 1 << 15

  const InfoNone: InfoMask := 0
  const InfoSourceCode: InfoMask := InfoFunction | InfoFile | InfoLine
  const InfoDevice: InfoMask := InfoDeviceName | InfoDeviceModel
  const InfoProcess: InfoMask := InfoProcessName | InfoProcessID
  const InfoSystem: InfoMask := InfoSystemName | InfoSystemVersion
  const InfoContent: InfoMask := InfoMessage | InfoError | InfoException
  const InfoAll: InfoMask := !InfoNone

  /** The sixteen single flags, in bit order. */
  const SingleFlags: seq<InfoMask> := [
    InfoFunction, InfoFile, InfoLine, InfoModule, InfoProcessName, InfoProcessID, InfoDate,
    InfoDeviceName, InfoDeviceModel, InfoSystemName, InfoSystemVersion, InfoLoggerName,
    InfoLevel, InfoMessage, InfoError, InfoException]

  /** The named unions of single flags. */
  const NamedUnions: seq<InfoMask> := [InfoSourceCode, InfoDevice, InfoProcess, InfoSystem, InfoContent]

  /** Every bit of flag is set in mask. */
  predicate Includes(mask: InfoMask, flag: InfoMask)
  {
    mask & flag == flag
  }

  /** Mask and flag share no bit. */
  predicate Disjoint(mask: InfoMask, flag: InfoMask)
  {
    mask & flag == 0
  }

  /** Flag i is bit i, so the single flags are distinct powers of two. */
  lemma SingleFlagsArePowersOfTwo()
    ensures |SingleFlags| == 16
    ensures forall i :: 0 <= i < |SingleFlags| ==> SingleFlags[i] == 1 << i
  {
  }

  /** Two different single flags never share a bit. */
  lemma SingleFlagsArePairwiseDisjoint(i: nat, j: nat)
    requires i < |SingleFlags| && j < |SingleFlags| && i != j
    ensures Disjoint(SingleFlags[i], SingleFlags[j])
    ensures SingleFlags[i] != SingleFlags[j]
  {
    SingleFlagsArePowersOfTwo();
    var a, b := SingleFlags[i], SingleFlags[j];
    assert a == 1 << i && b == 1 << j;
  }

  /** A single flag lies in SourceCode exactly when it is Function, File or Line. */
  lemma SourceCodeMembers(f: InfoMask)
    requires f in SingleFlags
    ensures Includes(InfoSourceCode, f) <==> f == InfoFunction || f == InfoFile || f == InfoLine
    ensures !Includes(InfoSourceCode, f) ==> Disjoint(InfoSourceCode, f)
  {
  }

  /** A single flag lies in Content exactly when it is Message, Error or Exception. */
  lemma ContentMembers(f: InfoMask)
    requires f in SingleFlags
    ensures Includes(InfoContent, f) <==> f == InfoMessage || f == InfoError || f == InfoException
    ensures !Includes(InfoContent, f) ==> Disjoint(InfoContent, f)
  {
  }

  /** Device holds exactly DeviceName and DeviceModel. */
  lemma DeviceMembers(f: InfoMask)
    requires f in SingleFlags
    ensures Includes(InfoDevice, f) <==> f == InfoDeviceName || f == InfoDeviceModel
  {
  }

  /** Process holds exactly ProcessName and ProcessID. */
  lemma ProcessMembers(f: InfoMask)
    requires f in SingleFlags
    ensures Includes(InfoProcess, f) <==> f == InfoProcessName || f == InfoProcessID
  {
  }

  /** System holds exactly SystemName and SystemVersion. */
  lemma SystemMembers(f: InfoMask)
    requires f in SingleFlags
    ensures Includes(InfoSystem, f) <==> f == InfoSystemName || f == InfoSystemVersion
  {
  }

  /** Every flag and every named union lies in All and shares no bit with None. */
  lemma AllAndNoneBound(m: InfoMask)
    requires m in SingleFlags || m in NamedUnions
    ensures Includes(InfoAll, m) && Disjoint(InfoNone, m)
    ensures m != InfoNone
  {
  }
}
