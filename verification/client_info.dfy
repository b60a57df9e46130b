/**
 * NXLogClientInfo: an immutable record of eleven properties describing the log client, built
 * from a seed dictionary keyed by info flags, and the substitution of `$(property)` variables
 * in a string by the values of those properties.
 */
module LogClientInfo {
  import opened Optional
  import opened Text
  import opened LogTypes

  /** The eleven properties of a client info, in the order of their info flags. */
  datatype Property =
    | Function | File | Line | Module | ProcessName | ProcessID | Date
    | DeviceName | DeviceModel | SystemName | SystemVersion

  /** The property's name, which is also the name of its variable. */
  function PropertyName(p: Property): string
  {
    match p
    case Function => "function"
    case File => "file"
    case Line => "line"
    case Module => "module"
    case ProcessName => "processName"
    case ProcessID => "processID"
    case Date => "date"
    case DeviceName => "deviceName"
    case DeviceModel => "deviceModel"
    case SystemName => "systemName"
    case SystemVersion => "systemVersion"
  }

  /** The info flag that stands for the property (and keys it in the seed dictionary). */
  function PropertyFlag(p: Property): InfoMask
  {
    match p
    case Function => InfoFunction
    case File => InfoFile
    case Line => InfoLine
    case Module => InfoModule
    case ProcessName => InfoProcessName
    case ProcessID => InfoProcessID
    case Date => InfoDate
    case DeviceName => InfoDeviceName
    case DeviceModel => InfoDeviceModel
    case SystemName => InfoSystemName
    case SystemVersion => InfoSystemVersion
  }

  /** The property with the given name, if there is one. */
  function PropertyNamed(n: string): (r: Option<Property>)
    ensures r.Some? ==> PropertyName(r.value) == n
    ensures r.None? ==> forall p :: PropertyName(p) != n
  {
    if n == "function" then Some(Function)
    else if n == "file" then Some(File)
    else if n == "line" then Some(Line)
    else if n == "module" then Some(Module)
    else if n == "processName" then Some(ProcessName)
    else if n == "processID" then Some(ProcessID)
    else if n == "date" then Some(Date)
    else if n == "deviceName" then Some(DeviceName)
    else if n == "deviceModel" then Some(DeviceModel)
    else if n == "systemName" then Some(SystemName)
    else if n == "systemVersion" then Some(SystemVersion)
    else None
  }

  /** Names identify properties: the lookup by name inverts PropertyName. */
  lemma PropertyNamesIdentify(p: Property, q: Property)
    ensures PropertyNamed(PropertyName(p)) == Some(p)
    ensures PropertyName(p) == PropertyName(q) ==> p == q
  {
  }

  /** The position of the property in the order of the info flags. */
  function PropertyIndex(p: Property): (i: nat)
    ensures i < 11
  {
    match p
    case Function => 0
    case File => 1
    case Line => 2
    case Module => 3
    case ProcessName => 4
    case ProcessID => 5
    case Date => 6
    case DeviceName => 7
    case DeviceModel => 8
    case SystemName => 9
    case SystemVersion => 10
  }

  /** The property at a position of the info-flag order; it inverts PropertyIndex. */
  function PropertyAt(i: nat): (p: Property)
    requires i < 11
    ensures PropertyIndex(p) == i
  {
    [Function, File, Line, Module, ProcessName, ProcessID, Date,
     DeviceName, DeviceModel, SystemName, SystemVersion][i]
  }

  /** The flag of property i is single flag i. */
  lemma PropertyFlagIsSingleFlag(p: Property)
    ensures PropertyFlag(p) == SingleFlags[PropertyIndex(p)]
    ensures PropertyAt(PropertyIndex(p)) == p
  {
  }

  /** Property i stands for single flag i (bits 0 .. 10), so no two properties share a bit. */
  lemma PropertyFlagsAreDistinctSingleFlags(p: Property, q: Property)
    ensures PropertyFlag(p) == SingleFlags[PropertyIndex(p)]
    ensures p != q ==> PropertyIndex(p) != PropertyIndex(q) && Disjoint(PropertyFlag(p), PropertyFlag(q))
  {
    PropertyFlagIsSingleFlag(p);
    PropertyFlagIsSingleFlag(q);
    if p != q {
      SingleFlagsArePairwiseDisjoint(PropertyIndex(p), PropertyIndex(q));
    }
  }

  /** Properties taken from the seed dictionary rather than from the running environment. */
  predicate IsSourceCodeProperty(p: Property)
  {
    p == Function || p == File || p == Line || p == Module
  }

  /** A value of the seed dictionary: a string, or a number such as the line. */
  datatype SeedValue = TextValue(text: string) | NumberValue(number: int)

  /** The textual form of a seed value. */
  function Describe(v: SeedValue): string
  {
    match v
    case TextValue(t) => t
    case NumberValue(n) => Decimal(n)
  }

  /** A client info; each property is held by its textual form and may be nil. */
  datatype ClientInfo = ClientInfo(
    functionName: Option<string>, file: Option<string>, line: Option<string>, moduleName: Option<string>,
    processName: Option<string>, processID: Option<string>, date: Option<string>,
    deviceName: Option<string>, deviceModel: Option<string>,
    systemName: Option<string>, systemVersion: Option<string>)

  /** The value of a property. */
  function Get(c: ClientInfo, p: Property): Option<string>
  {
    match p
    case Function => c.functionName
    case File => c.file
    case Line => c.line
    case Module => c.moduleName
    case ProcessName => c.processName
    case ProcessID => c.processID
    case Date => c.date
    case DeviceName => c.deviceName
    case DeviceModel => c.deviceModel
    case SystemName => c.systemName
    case SystemVersion => c.systemVersion
  }

  /** An info dictionary: NSNumber keys holding the raw values of info flags. */
  type InfoDictionary = map<int, SeedValue>

  /** The dictionary key of an info flag: its raw value. */
  function Key(flag: InfoMask): int
  {
    flag as int
  }

  /** The keys of the source-code flags are 1, 2, 4 and 8. */
  lemma SourceCodeKeys()
    ensures Key(InfoFunction) == 1 && Key(InfoFile) == 2 && Key(InfoLine) == 4 && Key(InfoModule) == 8
  {
  }

  /** The seed entry for a property: the description of the value under its flag, or nil. */
  function SeedEntry(seed: InfoDictionary, p: Property): Option<string>
  {
    if Key(PropertyFlag(p)) in seed then Some(Describe(seed[Key(PropertyFlag(p))])) else None
  }

  /**
   * initWithSourceCodeInfo: — function, file, line and module come from the seed dictionary
   * under their flags; process, date, device and system come from the environment.
   */
  function InitWithSourceCodeInfo(seed: InfoDictionary, environment: Property -> Option<string>)
    : (c: ClientInfo)
    ensures forall p :: IsSourceCodeProperty(p) ==>
              Get(c, p) == (if Key(PropertyFlag(p)) in seed then Some(Describe(seed[Key(PropertyFlag(p))])) else None)
    ensures forall p :: !IsSourceCodeProperty(p) ==> Get(c, p) == environment(p)
  {
    ClientInfo(
      SeedEntry(seed, Function), SeedEntry(seed, File), SeedEntry(seed, Line), SeedEntry(seed, Module),
      environment(ProcessName), environment(ProcessID), environment(Date),
      environment(DeviceName), environment(DeviceModel),
      environment(SystemName), environment(SystemVersion))
  }

  /** The variable that stands for p: `$(` followed by its name and `)`. */
  function VariableOf(p: Property): string
  {
    "$(" + PropertyName(p) + ")"
  }

  /** What a variable is replaced by: the property's value, or nothing when it is nil. */
  function Substitute(c: ClientInfo, p: Property): string
  {
    match Get(c, p)
    case None => ""
    case Some(v) => v
  }

  /**
   * stringByReplacingVariablesInString: — scanning left to right, each `$(name)` whose name is
   * a property name is replaced by the property's value; everything else is copied.
   * Substituted values are not scanned again.
   */
  function ReplaceVariables(c: ClientInfo, s: string): string
    decreases |s|
  {
    if |s| == 0 then ""
    else if |s| >= 2 && s[0] == '$' && s[1] == '(' && ')' in s[2..] then
      var k := IndexOf(s[2..], ')');
      match PropertyNamed(s[2..2 + k])
      case Some(p) => Substitute(c, p) + ReplaceVariables(c, s[3 + k..])
      case None => [s[0]] + ReplaceVariables(c, s[1..])
    else [s[0]] + ReplaceVariables(c, s[1..])
  }

  /** v occurs in s at position i. */
  predicate OccursAt(s: string, i: int, v: string)
  {
    0 <= i && i + |v| <= |s| && s[i..i + |v|] == v
  }

  /** Some variable of a property occurs in s. */
  ghost predicate ContainsVariable(s: string)
  {
    exists i, p :: OccursAt(s, i, VariableOf(p))
  }

  /** No property name contains a closing parenthesis or a dollar sign. */
  lemma NamesAreInert(p: Property)
    ensures ')' !in PropertyName(p) && '$' !in PropertyName(p)
  {
  }

  /** When no variable starts a string, its first character is copied and scanning moves on. */
  lemma FirstCharCopied(c: ClientInfo, s: string)
    requires |s| > 0
    requires forall p :: !OccursAt(s, 0, VariableOf(p))
    ensures ReplaceVariables(c, s) == [s[0]] + ReplaceVariables(c, s[1..])
  {
    if |s| >= 2 && s[0] == '$' && s[1] == '(' && ')' in s[2..] {
      var k := IndexOf(s[2..], ')');
      var name, rest := s[2..2 + k], s[3 + k..];
      assert s == "$(" + name + ")" + rest;
      assert s[1..] == "(" + name + ")" + rest;
      assert PropertyNamed(name).Some? ==> OccursAt(s, 0, VariableOf(PropertyNamed(name).value));
      ReplaceAtDelimited(c, name, rest);
    }
  }

  /** A string in which no property variable occurs is returned unchanged. */
  lemma {:induction false} NoVariableUnchanged(c: ClientInfo, s: string)
    requires !ContainsVariable(s)
    ensures ReplaceVariables(c, s) == s
    decreases |s|
  {
    if |s| > 0 {
      assert !ContainsVariable(s[1..]) by {
        forall i, p | OccursAt(s[1..], i, VariableOf(p))
          ensures false
        {
          assert s[i + 1..i + 1 + |VariableOf(p)|] == s[1..][i..i + |VariableOf(p)|];
          assert OccursAt(s, i + 1, VariableOf(p));
        }
      }
      FirstCharCopied(c, s);
      NoVariableUnchanged(c, s[1..]);
      assert s == [s[0]] + s[1..];
    }
  }

  /** A character other than a dollar sign is copied as it is. */
  lemma PlainCharCopied(c: ClientInfo, s: string)
    requires |s| > 0 && s[0] != '$'
    ensures ReplaceVariables(c, s) == [s[0]] + ReplaceVariables(c, s[1..])
  {
  }

  /** Text without a dollar sign is copied unchanged in front of whatever follows it. */
  lemma {:induction false} PlainPrefixCopied(c: ClientInfo, plain: string, s: string)
    requires '$' !in plain
    ensures ReplaceVariables(c, plain + s) == plain + ReplaceVariables(c, s)
    decreases |plain|
  {
    if |plain| > 0 {
      var t := plain + s;
      ConsSplit(plain, s);
      PlainCharCopied(c, t);
      assert '$' !in plain[1..] by {
        assert forall k :: 0 <= k < |plain[1..]| ==> plain[1..][k] == plain[k + 1];
      }
      PlainPrefixCopied(c, plain[1..], s);
      ConsSplit(plain, ReplaceVariables(c, s));
    } else {
      assert plain + s == s;
    }
  }

  /**
   * The scan at `$(name)` with no closing parenthesis in the name: a property name is replaced
   * and scanning resumes after the `)`; any other name leaves the `$` copied and scanning
   * resumes at the `(`.
   */
  lemma ReplaceAtDelimited(c: ClientInfo, name: string, rest: string)
    requires ')' !in name
    ensures PropertyNamed(name).Some? ==>
              ReplaceVariables(c, "$(" + name + ")" + rest) == Substitute(c, PropertyNamed(name).value) + ReplaceVariables(c, rest)
    ensures PropertyNamed(name).None? ==>
              ReplaceVariables(c, "$(" + name + ")" + rest) == "$" + ReplaceVariables(c, "(" + name + ")" + rest)
  {
    var s := "$(" + name + ")" + rest;
    SplitAppend("$(" + name + ")", rest);
    var t := s[2..];
    assert t == name + ")" + rest;
    assert t[..|name|] == name;
    IndexOfFirst(t, ')', |name|);
    assert s[2..2 + |name|] == name;
    assert s[3 + |name|..] == rest;
    assert s[1..] == "(" + name + ")" + rest;
  }

  /** A property's variable is replaced by the property's value, and scanning resumes after it. */
  lemma VariableReplaced(c: ClientInfo, p: Property, rest: string)
    ensures ReplaceVariables(c, VariableOf(p) + rest) == Substitute(c, p) + ReplaceVariables(c, rest)
  {
    NamesAreInert(p);
    PropertyNamesIdentify(p, p);
    ReplaceAtDelimited(c, PropertyName(p), rest);
    assert VariableOf(p) + rest == "$(" + PropertyName(p) + ")" + rest;
  }

  /** Brackets around text without a dollar sign add none. */
  lemma BracketedIsPlain(n: string)
    requires '$' !in n
    ensures '$' !in "(" + n + ")"
  {
    var inner := "(" + n + ")";
    assert forall k :: 0 <= k < |inner| ==> inner[k] == '(' || inner[k] == ')' || inner[k] in n;
  }

  /** `$(n)` with n not a property name is copied unchanged. */
  lemma UnknownVariableKept(c: ClientInfo, n: string, rest: string)
    requires PropertyNamed(n).None? && ')' !in n && '$' !in n
    ensures ReplaceVariables(c, "$(" + n + ")" + rest) == "$(" + n + ")" + ReplaceVariables(c, rest)
  {
    var inner := "(" + n + ")";
    calc {
      ReplaceVariables(c, "$(" + n + ")" + rest);
      { ReplaceAtDelimited(c, n, rest); }
      "$" + ReplaceVariables(c, inner + rest);
      { BracketedIsPlain(n); PlainPrefixCopied(c, inner, rest); }
      "$" + (inner + ReplaceVariables(c, rest));
      "$(" + n + ")" + ReplaceVariables(c, rest);
    }
  }

  /** A message template: literal text and property variables. */
  datatype Piece = Literal(text: string) | Variable(property: Property)

  /** The template written out as a string. */
  function TemplateText(pieces: seq<Piece>): string
  {
    if |pieces| == 0 then ""
    else
      (match pieces[0]
       case Literal(t) => t
       case Variable(p) => VariableOf(p))
      + TemplateText(pieces[1..])
  }

  /** The template with every variable replaced by its property's value. */
  function Render(c: ClientInfo, pieces: seq<Piece>): string
  {
    if |pieces| == 0 then ""
    else
      (match pieces[0]
       case Literal(t) => t
       case Variable(p) => Substitute(c, p))
      + Render(c, pieces[1..])
  }

  predicate PlainLiterals(pieces: seq<Piece>)
  {
    forall k :: 0 <= k < |pieces| && pieces[k].Literal? ==> '$' !in pieces[k].text
  }

  /**
   * Replacing variables in a template whose literal text has no dollar sign gives the template
   * with every variable replaced by its property's value.
   */
  lemma {:induction false} ReplaceRendersTemplate(c: ClientInfo, pieces: seq<Piece>)
    requires PlainLiterals(pieces)
    ensures ReplaceVariables(c, TemplateText(pieces)) == Render(c, pieces)
    decreases |pieces|
  {
    if |pieces| > 0 {
      ReplaceRendersTemplate(c, pieces[1..]);
      match pieces[0]
      case Literal(t) =>
        PlainPrefixCopied(c, t, TemplateText(pieces[1..]));
      case Variable(p) =>
        VariableReplaced(c, p, TemplateText(pieces[1..]));
    }
  }
}
