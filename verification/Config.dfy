/** The configuration file (src/config.c): its loader, line by line as `fgets`
    delivers them, and the printer of the effective configuration. */
module Config {
  import opened Common

  const LINE_SIZE: nat := 512
  const BIND_SIZE: nat := 64
  const ULONG_RANGE: nat := 0x1_0000_0000_0000_0000

  datatype RadioMode = Offline | ReceiveOnly | RxTuning | Transmit

  datatype Config = Config(
    daemonEnabled: bool, radioMode: RadioMode, httpBind: string, httpPort: nat, testPage: bool,
    rtlEnabled: bool, rtlBind: string, rtlPort: nat)

  datatype Section = NoSection | DaemonSection | RadioSection | HttpSection | RtlTcpSection
  datatype Key = Enabled | Mode | Bind | Port | TestPage | RtlEnabled | RtlBind | RtlPort

  datatype Failure =
    | CannotOpen | TooLong | MalformedHeader | UnknownSection | ExpectedSetting
    | UnknownKey | DuplicateKey | InvalidValue

  /** A failed load keeps what it had set before, and names the line. */
  datatype Result = Loaded(config: Config) | Failed(config: Config, line: nat, why: Failure)

  // ---- text ----

  predicate IsSpace(c: char) {
    c == ' ' || '\t' <= c <= '\r'
  }

  function TrimLeft(s: string): string {
    if s != "" && IsSpace(s[0]) then TrimLeft(s[1..]) else s
  }

  function TrimRight(s: string): string {
    if s != "" && IsSpace(s[|s| - 1]) then TrimRight(s[..|s| - 1]) else s
  }

  function Trimmed(s: string): string {
    TrimRight(TrimLeft(s))
  }

  /** The first place of a character, or the length when there is none. */
  function Find(s: string, c: char): (r: nat)
    ensures r <= |s| && (r < |s| ==> s[r] == c) && c !in s[..r]
  {
    if s == "" || s[0] == c then 0 else
      var r := 1 + Find(s[1..], c);
      assert s[..r] == [s[0]] + s[1..][..r - 1];
      r
  }

  lemma {:induction false} FindIs(s: string, c: char, k: nat)
    requires k <= |s| && c !in s[..k] && (k < |s| ==> s[k] == c)
    ensures Find(s, c) == k
  {
    if k > 0 {
      assert s[..k] == [s[0]] + s[1..][..k - 1];
      FindIs(s[1..], c, k - 1);
    }
  }

  predicate IsDigit(c: char) {
    '0' <= c <= '9'
  }

  predicate AllDigits(s: string) {
    forall c <- s :: IsDigit(c)
  }

  function DigitValue(c: char): nat
    requires IsDigit(c)
  {
    c as int - '0' as int
  }

  function DigitsValue(s: string): nat
    requires AllDigits(s)
  {
    if s == "" then 0 else 10 * DigitsValue(s[..|s| - 1]) + DigitValue(s[|s| - 1])
  }

  /** A port as `strtoul` reads it: an optional sign, which wraps a negative
      number round 64 bits, then nothing but digits. */
  function ParsePort(s: string): (r: Option<nat>)
    ensures r.Some? ==> 0 < r.value <= 65_535
  {
    var signed := s != "" && (s[0] == '-' || s[0] == '+');
    var digits := if signed then s[1..] else s;
    if digits == "" || !AllDigits(digits) then None
    else
      var n := DigitsValue(digits);
      if n >= ULONG_RANGE then None
      else
        var port := if s[0] == '-' && n > 0 then ULONG_RANGE - n else n;
        if 0 < port <= 65_535 then Some(port) else None
  }

  function ParseBool(s: string): Option<bool> {
    if s == "true" || s == "yes" || s == "1" then Some(true)
    else if s == "false" || s == "no" || s == "0" then Some(false)
    else None
  }

  function ParseMode(s: string): Option<RadioMode> {
    if s == "offline" then Some(Offline)
    else if s == "receive" then Some(ReceiveOnly)
    else if s == "rx-tuning" then Some(RxTuning)
    else if s == "transmit" then Some(Transmit)
    else None
  }

  function ModeName(m: RadioMode): string {
    match m
    case Offline => "offline"
    case ReceiveOnly => "receive"
    case RxTuning => "rx-tuning"
    case Transmit => "transmit"
  }

  function SectionOf(name: string): Option<Section> {
    if name == "daemon" then Some(DaemonSection)
    else if name == "radio" then Some(RadioSection)
    else if name == "http" then Some(HttpSection)
    else if name == "rtl_tcp" then Some(RtlTcpSection)
    else None
  }

  function KeyOf(section: Section, name: string): Option<Key> {
    match section
    case DaemonSection => if name == "enabled" then Some(Enabled) else None
    case RadioSection => if name == "mode" then Some(Mode) else None
    case HttpSection =>
      if name == "bind" then Some(Bind)
      else if name == "port" then Some(Port)
      else if name == "test_page" then Some(TestPage)
      else None
    case RtlTcpSection =>
      if name == "enabled" then Some(RtlEnabled)
      else if name == "bind" then Some(RtlBind)
      else if name == "port" then Some(RtlPort)
      else None
    case NoSection => None
  }

  predicate FitsBind(s: string) {
    0 < |s| < BIND_SIZE
  }

  /** The configuration with one key set, when the text is a value for it. */
  function SetKey(c: Config, key: Key, text: string): Option<Config> {
    match key
    case Enabled => (match ParseBool(text) case Some(b) => Some(c.(daemonEnabled := b)) case None => None)
    case Mode => (match ParseMode(text) case Some(m) => Some(c.(radioMode := m)) case None => None)
    case Bind => if FitsBind(text) then Some(c.(httpBind := text)) else None
    case Port => (match ParsePort(text) case Some(p) => Some(c.(httpPort := p)) case None => None)
    case TestPage => (match ParseBool(text) case Some(b) => Some(c.(testPage := b)) case None => None)
    case RtlEnabled => (match ParseBool(text) case Some(b) => Some(c.(rtlEnabled := b)) case None => None)
    case RtlBind => if FitsBind(text) then Some(c.(rtlBind := text)) else None
    case RtlPort => (match ParsePort(text) case Some(p) => Some(c.(rtlPort := p)) case None => None)
  }

  // ---- one line ----

  datatype State = State(section: Section, seen: set<Key>, config: Config)

  datatype Outcome = Next(state: State) | Stop(config: Config, why: Failure)

  /** Assigns first, then refuses a key already seen or a bad value. */
  function Assign(s: State, name: string, text: string): Outcome {
    match KeyOf(s.section, name)
    case None => Stop(s.config, UnknownKey)
    case Some(key) =>
      var changed := SetKey(s.config, key, text);
      var config := if changed.Some? then changed.value else s.config;
      if key in s.seen then Stop(config, DuplicateKey)
      else if changed.None? then Stop(config, InvalidValue)
      else Next(State(s.section, s.seen + {key}, config))
  }

  /** What a trimmed line does. */
  function Line(s: State, text: string): Outcome {
    if text == "" || text[0] == '#' || text[0] == ';' then Next(s)
    else if text[0] == '[' then
      if |text| < 3 || text[|text| - 1] != ']' then Stop(s.config, MalformedHeader)
      else
        match SectionOf(Trimmed(text[1..|text| - 1]))
        case Some(section) => Next(s.(section := section))
        case None => Stop(s.config, UnknownSection)
    else
      var equals := Find(text, '=');
      if equals == |text| || s.section == NoSection then Stop(s.config, ExpectedSetting)
      else Assign(s, Trimmed(text[..equals]), Trimmed(text[equals + 1..]))
  }

  // ---- the file ----

  /** What one `fgets` takes: through the first newline, at most 511 characters. */
  function Taken(data: string): (r: nat)
    requires data != ""
    ensures 0 < r <= |data|
  {
    var newline := Find(data, '\n');
    var line := if newline < |data| then newline + 1 else |data|;
    if line < LINE_SIZE then line else LINE_SIZE - 1
  }

  /** Whether that `fgets` ran into the end of the file. */
  predicate HitsEnd(data: string) {
    |data| < LINE_SIZE - 1 && '\n' !in data
  }

  /** A C string ends at its first NUL. */
  function CString(s: string): string {
    s[..Find(s, '\0')]
  }

  predicate IsTooLong(data: string)
    requires data != ""
  {
    '\n' !in CString(data[..Taken(data)]) && !HitsEnd(data)
  }

  /** The loader over the rest of the file, `line` lines in. */
  function LoadFrom(s: State, data: string, line: nat): Result
    decreases |data|
  {
    if data == "" then Loaded(s.config)
    else if IsTooLong(data) then Failed(s.config, line + 1, TooLong)
    else
      match Line(s, Trimmed(CString(data[..Taken(data)])))
      case Stop(config, why) => Failed(config, line + 1, why)
      case Next(next) => LoadFrom(next, data[Taken(data)..], line + 1)
  }

  /** The file as `fopen` finds it. */
  datatype File = Missing | Unreadable | Contents(data: string)

  /** The loader; a missing file may be allowed. */
  function LoadResult(start: Config, file: File, missingIsOk: bool): Result {
    match file
    case Missing => if missingIsOk then Loaded(start) else Failed(start, 0, CannotOpen)
    case Unreadable => Failed(start, 0, CannotOpen)
    case Contents(data) => LoadFrom(State(NoSection, {}, start), data, 0)
  }

  /** `trim`: both ends moved in over white space. */
  method Trim(text: string) returns (trimmed: string)
    ensures trimmed == Trimmed(text)
  {
    var begin := 0;
    while begin < |text| && IsSpace(text[begin])
      invariant begin <= |text| && TrimLeft(text[begin..]) == TrimLeft(text)
    {
      assert text[begin..][1..] == text[begin + 1..];
      begin := begin + 1;
    }
    var left := text[begin..];
    var end: nat := |left|;
    assert left[..end] == left;
    while end > 0 && IsSpace(left[end - 1])
      invariant end <= |left| && TrimRight(left[..end]) == TrimRight(left)
    {
      assert left[..end][..end - 1] == left[..end - 1];
      end := end - 1;
    }
    trimmed := left[..end];
    assert TrimLeft(left) == left;
  }

  /** The loader's loop. */
  method Load(start: Config, file: File, missingIsOk: bool) returns (result: Result)
    ensures result == LoadResult(start, file, missingIsOk)
  {
    if !file.Contents? {
      return if file.Missing? && missingIsOk then Loaded(start) else Failed(start, 0, CannotOpen);
    }
    var data, lineNumber, section, seen, config := file.data, 0, NoSection, {}, start;
    while data != ""
      invariant LoadFrom(State(section, seen, config), data, lineNumber) == LoadResult(start, file, missingIsOk)
      decreases |data|
    {
      hide Taken, CString, HitsEnd, Line;
      var taken := Taken(data);
      lineNumber := lineNumber + 1;
      if IsTooLong(data) {
        return Failed(config, lineNumber, TooLong);
      }
      var text := Trim(CString(data[..taken]));
      var outcome := LoadLine(State(section, seen, config), text);
      if outcome.Stop? {
        return Failed(outcome.config, lineNumber, outcome.why);
      }
      section, seen, config := outcome.state.section, outcome.state.seen, outcome.state.config;
      data := data[taken..];
    }
    result := Loaded(config);
  }

  /** The body of the loop for one trimmed line. */
  method LoadLine(s: State, text: string) returns (outcome: Outcome)
    ensures outcome == Line(s, text)
  {
    if text == "" || text[0] == '#' || text[0] == ';' {
      return Next(s);
    }
    if text[0] == '[' {
      if |text| < 3 || text[|text| - 1] != ']' {
        return Stop(s.config, MalformedHeader);
      }
      var name := Trim(text[1..|text| - 1]);
      var section := SectionOf(name);
      return if section.Some? then Next(s.(section := section.value)) else Stop(s.config, UnknownSection);
    }
    var equals := Find(text, '=');
    if equals == |text| || s.section == NoSection {
      return Stop(s.config, ExpectedSetting);
    }
    var key := Trim(text[..equals]);
    var value := Trim(text[equals + 1..]);
    outcome := Assign(s, key, value);
  }

  // ---- the printer ----

  function Decimal(n: nat): (r: string)
    ensures r != "" && AllDigits(r)
  {
    var last := [('0' as int + n % 10) as char];
    if n < 10 then last else Decimal(n / 10) + last
  }

  function BoolName(b: bool): string {
    if b then "true" else "false"
  }

  const TITLE := "# effective configuration ("

  function Header(name: string): string {
    "[" + name + "]"
  }

  function Setting(name: string, value: string): string {
    name + "=" + value
  }

  function DaemonLines(c: Config): seq<string> {
    [Header("daemon"), Setting("enabled", BoolName(c.daemonEnabled)), ""]
  }

  function RadioLines(c: Config): seq<string> {
    [Header("radio"), Setting("mode", ModeName(c.radioMode)), ""]
  }

  function HttpLines(c: Config): seq<string> {
    [Header("http"), Setting("bind", c.httpBind), Setting("port", Decimal(c.httpPort)),
     Setting("test_page", BoolName(c.testPage)), ""]
  }

  function RtlTcpLines(c: Config): seq<string> {
    [Header("rtl_tcp"), Setting("enabled", BoolName(c.rtlEnabled)), Setting("bind", c.rtlBind),
     Setting("port", Decimal(c.rtlPort))]
  }

  function SettingLines(c: Config): seq<string> {
    DaemonLines(c) + (RadioLines(c) + (HttpLines(c) + RtlTcpLines(c)))
  }

  /** The lines of the printed configuration. */
  function PrintedLines(c: Config, path: string): seq<string> {
    [TITLE + path + ")"] + SettingLines(c)
  }

  function Join(lines: seq<string>): string {
    if lines == [] then "" else lines[0] + "\n" + Join(lines[1..])
  }

  function Printed(c: Config, path: string): string {
    Join(PrintedLines(c, path))
  }

  // ---- round trip ----

  /** A text as `trim` leaves it. */
  predicate IsTrimmed(s: string) {
    s != "" ==> !IsSpace(s[0]) && !IsSpace(s[|s| - 1])
  }

  /** A text that stays within a line of a C file. */
  predicate OneLine(s: string) {
    '\n' !in s && '\0' !in s
  }

  predicate ValidBind(s: string) {
    FitsBind(s) && IsTrimmed(s) && OneLine(s)
  }

  predicate ValidConfig(c: Config) {
    && ValidBind(c.httpBind) && ValidBind(c.rtlBind)
    && 0 < c.httpPort <= 65_535 && 0 < c.rtlPort <= 65_535
  }

  lemma {:induction false} TrimLeftSpec(s: string)
    ensures var r := TrimLeft(s);
            |r| <= |s| && r == s[|s| - |r|..] && (r != "" ==> !IsSpace(r[0]))
  {
    if s != "" && IsSpace(s[0]) {
      TrimLeftSpec(s[1..]);
    }
  }

  lemma {:induction false} TrimRightSpec(s: string)
    ensures var r := TrimRight(s);
            |r| <= |s| && r == s[..|r|] && (r != "" ==> !IsSpace(r[|r| - 1]))
  {
    if s != "" && IsSpace(s[|s| - 1]) {
      TrimRightSpec(s[..|s| - 1]);
    }
  }

  /** Trimming leaves a trimmed stretch of the text, and trimmed text alone. */
  lemma TrimmedSpec(s: string)
    ensures IsTrimmed(Trimmed(s))
    ensures forall c <- Trimmed(s) :: c in s
    ensures IsTrimmed(s) ==> Trimmed(s) == s
    ensures s != "" && !IsSpace(s[0]) ==> Trimmed(s) != "" && Trimmed(s)[0] == s[0]
  {
    TrimLeftSpec(s);
    TrimRightSpec(TrimLeft(s));
    if s != "" && !IsSpace(s[0]) {
      KeepsFirst(s);
    }
  }

  lemma {:induction false} KeepsFirst(s: string)
    requires s != "" && !IsSpace(s[0])
    ensures TrimRight(s) != "" && TrimRight(s)[0] == s[0]
  {
    if IsSpace(s[|s| - 1]) {
      KeepsFirst(s[..|s| - 1]);
    }
  }

  /** One trailing newline does not matter. */
  lemma TrimNewline(s: string)
    requires s != "" ==> !IsSpace(s[0])
    ensures Trimmed(s + "\n") == Trimmed(s)
  {
    var line := s + "\n";
    assert line[..|s|] == s && line[|s|] == '\n' && IsSpace('\n');
    if s == "" {
      assert line[1..] == "";
    } else {
      assert line[0] == s[0];
    }
  }

  // ---- loading what was printed ----

  /** One whole line of the file that fits the buffer. */
  lemma LoadWholeLine(s: State, text: string, rest: string, line: nat)
    requires OneLine(text) && |text| < LINE_SIZE - 1 && (text != "" ==> !IsSpace(text[0]))
    ensures LoadFrom(s, text + "\n" + rest, line) ==
            match Line(s, Trimmed(text))
            case Stop(config, why) => Failed(config, line + 1, why)
            case Next(next) => LoadFrom(next, rest, line + 1)
  {
    hide Line;
    var data := text + "\n" + rest;
    assert data[..|text|] == text;
    FindIs(data, '\n', |text|);
    assert Taken(data) == |text| + 1 && data[..Taken(data)] == text + "\n" && data[Taken(data)..] == rest;
    FindIs(text + "\n", '\0', |text| + 1);
    assert CString(text + "\n") == text + "\n";
    TrimNewline(text);
  }

  /** A line the buffer cannot hold stops the load. */
  lemma LoadLongLine(s: State, text: string, rest: string, line: nat)
    requires '\n' !in text && |text| >= LINE_SIZE - 1
    ensures LoadFrom(s, text + "\n" + rest, line) == Failed(s.config, line + 1, TooLong)
  {
    var data := text + "\n" + rest;
    assert data[..|text|] == text;
    FindIs(data, '\n', |text|);
    assert data[..Taken(data)] == text[..LINE_SIZE - 1];
    var kept := CString(data[..Taken(data)]);
    assert forall c <- kept :: c in text;
  }

  lemma CommentLine(s: State, text: string)
    requires text != "" && text[0] == '#'
    ensures Line(s, Trimmed(text)) == Next(s)
  {
    TrimmedSpec(text);
  }

  lemma HeaderLine(s: State, name: string, section: Section)
    requires SectionOf(name) == Some(section) && name != "" && IsTrimmed(name)
    ensures Line(s, Trimmed(Header(name))) == Next(s.(section := section))
  {
    var text := Header(name);
    TrimmedSpec(text);
    TrimmedSpec(name);
    assert text[1..|text| - 1] == name;
  }

  /** A name that is not taken for anything else. */
  predicate IsName(name: string) {
    name != "" && IsTrimmed(name) && '=' !in name && name[0] !in "#;["
  }

  /** A printed setting is read as the same name and value. */
  lemma SettingLine(s: State, name: string, value: string)
    requires IsName(name) && s.section != NoSection && IsTrimmed(value)
    ensures Line(s, Trimmed(Setting(name, value))) == Assign(s, name, value)
  {
    hide Assign;
    var text := Setting(name, value);
    assert text[..|name|] == name && text[|name| + 1..] == value && text[0] == name[0];
    TrimmedSpec(text);
    TrimmedSpec(name);
    TrimmedSpec(value);
    FindIs(text, '=', |name|);
  }

  lemma {:induction false} DecimalReadsBack(n: nat)
    ensures DigitsValue(Decimal(n)) == n
  {
    if n >= 10 {
      DecimalReadsBack(n / 10);
      var d := Decimal(n);
      assert d[..|d| - 1] == Decimal(n / 10);
    } else {
      assert Decimal(n)[..0] == "";
    }
  }

  lemma PortReadsBack(n: nat)
    requires 0 < n <= 65_535
    ensures ParsePort(Decimal(n)) == Some(n)
    ensures IsTrimmed(Decimal(n)) && OneLine(Decimal(n)) && |Decimal(n)| <= 5
  {
    DecimalReadsBack(n);
    DecimalLength(n, 5);
    var d := Decimal(n);
    assert IsDigit(d[0]) && IsDigit(d[|d| - 1]);
  }

  /** `strtoul` wraps a negative number round 64 bits, so some pass for ports. */
  lemma NegativePortWraps(n: nat)
    requires 0 < n < ULONG_RANGE
    ensures ParsePort("-" + Decimal(n)) == if ULONG_RANGE - n <= 65_535 then Some(ULONG_RANGE - n) else None
  {
    DecimalReadsBack(n);
    var s := "-" + Decimal(n);
    assert s[1..] == Decimal(n);
  }

  /** A number out of range, no number, or anything after one is no port. */
  lemma NoPort(n: nat, tail: string)
    ensures n == 0 || n > 65_535 ==> ParsePort(Decimal(n)) == None
    ensures tail != "" && !IsDigit(tail[|tail| - 1]) ==> ParsePort(Decimal(n) + tail) == None
    ensures ParsePort("") == None && ParsePort("-") == None && ParsePort("+") == None
  {
    DecimalReadsBack(n);
    var d := Decimal(n);
    assert IsDigit(d[0]);
    if tail != "" && !IsDigit(tail[|tail| - 1]) {
      var s := d + tail;
      assert s[|s| - 1] == tail[|tail| - 1] && s[1..][|s| - 2] == s[|s| - 1] && s[0] == d[0];
    }
  }

  function TenTo(digits: nat): nat {
    if digits == 0 then 1 else 10 * TenTo(digits - 1)
  }

  lemma {:induction false} DecimalLength(n: nat, digits: nat)
    requires 0 < digits && n < TenTo(digits)
    ensures |Decimal(n)| <= digits
  {
    if n >= 10 {
      assert digits > 1;
      DecimalLength(n / 10, digits - 1);
    }
  }

  /** A line that one `fgets` takes whole. */
  predicate Fits(text: string) {
    OneLine(text) && |text| < LINE_SIZE - 1 && (text != "" ==> !IsSpace(text[0]))
  }

  function RunLines(s: State, lines: seq<string>): Outcome
    decreases |lines|
  {
    if lines == [] then Next(s)
    else
      match Line(s, Trimmed(lines[0]))
      case Stop(config, why) => Stop(config, why)
      case Next(next) => RunLines(next, lines[1..])
  }

  lemma {:induction false} LoadJoined(s: State, lines: seq<string>, line: nat)
    requires (forall text <- lines :: Fits(text)) && RunLines(s, lines).Next?
    ensures LoadFrom(s, Join(lines), line) == Loaded(RunLines(s, lines).state.config)
    decreases |lines|
  {
    hide Line, Fits;
    if lines != [] {
      assert Fits(lines[0]);
      LoadFits(s, lines[0], Join(lines[1..]), line);
      LoadJoined(Line(s, Trimmed(lines[0])).state, lines[1..], line + 1);
    }
  }

  lemma LoadFits(s: State, text: string, rest: string, line: nat)
    requires Fits(text) && Line(s, Trimmed(text)).Next?
    ensures LoadFrom(s, text + "\n" + rest, line) == LoadFrom(Line(s, Trimmed(text)).state, rest, line + 1)
  {
    hide Line, LoadFrom;
    LoadWholeLine(s, text, rest, line);
  }

  lemma {:induction false} RunConcat(s: State, a: seq<string>, b: seq<string>)
    requires RunLines(s, a).Next?
    ensures RunLines(s, a + b) == RunLines(RunLines(s, a).state, b)
    decreases |a|
  {
    hide Line;
    if a == [] {
      assert a + b == b;
    } else {
      assert (a + b)[1..] == a[1..] + b;
      RunConcat(Line(s, Trimmed(a[0])).state, a[1..], b);
    }
  }

  lemma RunOne(s: State, text: string, lines: seq<string>)
    requires Line(s, Trimmed(text)).Next?
    ensures RunLines(s, [text] + lines) == RunLines(Line(s, Trimmed(text)).state, lines)
  {
    assert ([text] + lines)[1..] == lines;
  }

  lemma BoolReadsBack(b: bool)
    ensures ParseBool(BoolName(b)) == Some(b)
    ensures IsTrimmed(BoolName(b)) && OneLine(BoolName(b)) && |BoolName(b)| <= 5
  {
  }

  lemma ModeReadsBack(m: RadioMode)
    ensures ParseMode(ModeName(m)) == Some(m)
    ensures IsTrimmed(ModeName(m)) && OneLine(ModeName(m)) && |ModeName(m)| <= 9
  {
  }

  lemma BlankLine(s: State)
    ensures Line(s, Trimmed("")) == Next(s)
  {
  }

  lemma RunNone(s: State)
    ensures RunLines(s, []) == Next(s)
  {
  }

  /** A printed header, and a printed setting of a key not seen yet. */
  lemma RunHeader(s: State, name: string, section: Section, lines: seq<string>)
    requires SectionOf(name) == Some(section) && name != "" && IsTrimmed(name)
    ensures RunLines(s, [Header(name)] + lines) == RunLines(s.(section := section), lines)
  {
    hide Line, Trimmed, SectionOf, Header, RunLines;
    HeaderLine(s, name, section);
    RunOne(s, Header(name), lines);
  }

  lemma RunSetting(s: State, name: string, key: Key, value: string, lines: seq<string>)
    requires IsName(name) && s.section != NoSection && IsTrimmed(value)
    requires KeyOf(s.section, name) == Some(key) && key !in s.seen && SetKey(s.config, key, value).Some?
    ensures RunLines(s, [Setting(name, value)] + lines) ==
            RunLines(State(s.section, s.seen + {key}, SetKey(s.config, key, value).value), lines)
  {
    hide Line, Trimmed, Setting, RunLines, KeyOf, SetKey, IsTrimmed, IsName;
    SettingLine(s, name, value);
    RunOne(s, Setting(name, value), lines);
  }

  lemma RunBlank(s: State, lines: seq<string>)
    ensures RunLines(s, [""] + lines) == RunLines(s, lines)
  {
    BlankLine(s);
    RunOne(s, "", lines);
  }

  /** Each printed section sets its part of the configuration. */
  lemma RunDaemon(s: State, c: Config)
    requires Enabled !in s.seen
    ensures RunLines(s, DaemonLines(c)) ==
            Next(State(DaemonSection, s.seen + {Enabled}, s.config.(daemonEnabled := c.daemonEnabled)))
  {
    hide Line, Trimmed, BoolName, ParseBool, RunLines, Header, Setting;
    BoolReadsBack(c.daemonEnabled);
    var setting := Setting("enabled", BoolName(c.daemonEnabled));
    assert DaemonLines(c) == [Header("daemon")] + ([setting] + ([""] + []));
    RunHeader(s, "daemon", DaemonSection, [setting] + ([""] + []));
    var first := s.(section := DaemonSection);
    RunSetting(first, "enabled", Enabled, BoolName(c.daemonEnabled), [""] + []);
    var second := State(DaemonSection, s.seen + {Enabled}, s.config.(daemonEnabled := c.daemonEnabled));
    RunBlank(second, []);
    RunNone(second);
  }

  lemma RunRadio(s: State, c: Config)
    requires Mode !in s.seen
    ensures RunLines(s, RadioLines(c)) ==
            Next(State(RadioSection, s.seen + {Mode}, s.config.(radioMode := c.radioMode)))
  {
    hide Line, Trimmed, ModeName, ParseMode, RunLines, Header, Setting;
    ModeReadsBack(c.radioMode);
    var setting := Setting("mode", ModeName(c.radioMode));
    assert RadioLines(c) == [Header("radio")] + ([setting] + ([""] + []));
    RunHeader(s, "radio", RadioSection, [setting] + ([""] + []));
    var first := s.(section := RadioSection);
    RunSetting(first, "mode", Mode, ModeName(c.radioMode), [""] + []);
    var second := State(RadioSection, s.seen + {Mode}, s.config.(radioMode := c.radioMode));
    RunBlank(second, []);
    RunNone(second);
  }

  lemma RunHttp(s: State, c: Config)
    requires Bind !in s.seen && Port !in s.seen && TestPage !in s.seen && ValidConfig(c)
    ensures RunLines(s, HttpLines(c)) ==
            Next(State(HttpSection, s.seen + {Bind} + {Port} + {TestPage},
                       s.config.(httpBind := c.httpBind, httpPort := c.httpPort, testPage := c.testPage)))
  {
    hide Line, Trimmed, BoolName, ParseBool, ParsePort, Decimal, RunLines, Header, Setting, OneLine;
    var port, page := Setting("port", Decimal(c.httpPort)), Setting("test_page", BoolName(c.testPage));
    var rest := [port] + ([page] + ([""] + []));
    assert HttpLines(c) == [Header("http")] + ([Setting("bind", c.httpBind)] + rest);
    RunHeader(s, "http", HttpSection, [Setting("bind", c.httpBind)] + rest);
    var s1 := s.(section := HttpSection);
    RunSetting(s1, "bind", Bind, c.httpBind, rest);
    RunHttpRest(State(HttpSection, s1.seen + {Bind}, s1.config.(httpBind := c.httpBind)), c);
  }

  lemma RunHttpRest(s: State, c: Config)
    requires s.section == HttpSection && Port !in s.seen && TestPage !in s.seen && ValidConfig(c)
    ensures RunLines(s, [Setting("port", Decimal(c.httpPort))] +
                        ([Setting("test_page", BoolName(c.testPage))] + ([""] + []))) ==
            Next(State(HttpSection, s.seen + {Port} + {TestPage},
                       s.config.(httpPort := c.httpPort, testPage := c.testPage)))
  {
    hide Line, Trimmed, BoolName, ParseBool, ParsePort, Decimal, RunLines, Header, Setting, OneLine;
    BoolReadsBack(c.testPage);
    PortReadsBack(c.httpPort);
    RunSetting(s, "port", Port, Decimal(c.httpPort), [Setting("test_page", BoolName(c.testPage))] + ([""] + []));
    var s1 := State(HttpSection, s.seen + {Port}, s.config.(httpPort := c.httpPort));
    RunSetting(s1, "test_page", TestPage, BoolName(c.testPage), [""] + []);
    var s2 := State(HttpSection, s1.seen + {TestPage}, s1.config.(testPage := c.testPage));
    RunBlank(s2, []);
    RunNone(s2);
  }

  lemma RunRtlTcp(s: State, c: Config)
    requires RtlEnabled !in s.seen && RtlBind !in s.seen && RtlPort !in s.seen && ValidConfig(c)
    ensures RunLines(s, RtlTcpLines(c)) ==
            Next(State(RtlTcpSection, s.seen + {RtlEnabled} + {RtlBind} + {RtlPort},
                       s.config.(rtlEnabled := c.rtlEnabled, rtlBind := c.rtlBind, rtlPort := c.rtlPort)))
  {
    hide Line, Trimmed, BoolName, ParseBool, ParsePort, Decimal, RunLines, Header, Setting, OneLine;
    BoolReadsBack(c.rtlEnabled);
    var bind, port := Setting("bind", c.rtlBind), Setting("port", Decimal(c.rtlPort));
    var enabled := Setting("enabled", BoolName(c.rtlEnabled));
    assert RtlTcpLines(c) == [Header("rtl_tcp")] + ([enabled] + ([bind] + ([port] + [])));
    RunHeader(s, "rtl_tcp", RtlTcpSection, [enabled] + ([bind] + ([port] + [])));
    var s1 := s.(section := RtlTcpSection);
    RunSetting(s1, "enabled", RtlEnabled, BoolName(c.rtlEnabled), [bind] + ([port] + []));
    RunRtlTcpRest(State(RtlTcpSection, s1.seen + {RtlEnabled}, s1.config.(rtlEnabled := c.rtlEnabled)), c);
  }

  lemma RunRtlTcpRest(s: State, c: Config)
    requires s.section == RtlTcpSection && RtlBind !in s.seen && RtlPort !in s.seen && ValidConfig(c)
    ensures RunLines(s, [Setting("bind", c.rtlBind)] + ([Setting("port", Decimal(c.rtlPort))] + [])) ==
            Next(State(RtlTcpSection, s.seen + {RtlBind} + {RtlPort},
                       s.config.(rtlBind := c.rtlBind, rtlPort := c.rtlPort)))
  {
    hide Line, Trimmed, BoolName, ParseBool, ParsePort, Decimal, RunLines, Header, Setting, OneLine;
    PortReadsBack(c.rtlPort);
    RunSetting(s, "bind", RtlBind, c.rtlBind, [Setting("port", Decimal(c.rtlPort))] + []);
    var s1 := State(RtlTcpSection, s.seen + {RtlBind}, s.config.(rtlBind := c.rtlBind));
    RunSetting(s1, "port", RtlPort, Decimal(c.rtlPort), []);
    RunNone(State(RtlTcpSection, s1.seen + {RtlPort}, s1.config.(rtlPort := c.rtlPort)));
  }

  lemma SettingFits(name: string, value: string)
    requires IsName(name) && OneLine(name) && OneLine(value) && |name| + |value| < LINE_SIZE - 2
    ensures Fits(Setting(name, value))
  {
  }

  lemma HeaderFits(name: string)
    requires OneLine(name) && |name| < LINE_SIZE - 3
    ensures Fits(Header(name))
  {
  }

  /** Everything printed after the title fits the loader's lines. */
  lemma PrintedFits(c: Config)
    requires ValidConfig(c)
    ensures forall text <- SettingLines(c) :: Fits(text)
  {
    hide DaemonLines, RadioLines, HttpLines, RtlTcpLines, ValidConfig, Fits;
    FirstLinesFit(c);
    HttpLinesFit(c);
    RtlTcpLinesFit(c);
  }

  lemma FirstLinesFit(c: Config)
    ensures forall text <- DaemonLines(c) :: Fits(text)
    ensures forall text <- RadioLines(c) :: Fits(text)
  {
    hide BoolName, ModeName, Header, Setting, IsTrimmed, Fits, IsName, OneLine;
    HeadersFit();
    NameIs("enabled");
    NameIs("mode");
    BoolReadsBack(c.daemonEnabled);
    ModeReadsBack(c.radioMode);
    SettingFits("enabled", BoolName(c.daemonEnabled));
    SettingFits("mode", ModeName(c.radioMode));
  }

  lemma HttpLinesFit(c: Config)
    requires ValidConfig(c)
    ensures forall text <- HttpLines(c) :: Fits(text)
  {
    hide BoolName, Decimal, Header, Setting, IsTrimmed, Fits, IsName, OneLine;
    HeadersFit();
    NameIs("bind");
    NameIs("port");
    NameIs("test_page");
    BoolReadsBack(c.testPage);
    PortReadsBack(c.httpPort);
    SettingFits("bind", c.httpBind);
    SettingFits("port", Decimal(c.httpPort));
    SettingFits("test_page", BoolName(c.testPage));
  }

  lemma RtlTcpLinesFit(c: Config)
    requires ValidConfig(c)
    ensures forall text <- RtlTcpLines(c) :: Fits(text)
  {
    hide BoolName, Decimal, Header, Setting, IsTrimmed, Fits, IsName, OneLine;
    HeadersFit();
    NameIs("enabled");
    NameIs("bind");
    NameIs("port");
    BoolReadsBack(c.rtlEnabled);
    PortReadsBack(c.rtlPort);
    SettingFits("enabled", BoolName(c.rtlEnabled));
    SettingFits("bind", c.rtlBind);
    SettingFits("port", Decimal(c.rtlPort));
  }

  lemma HeadersFit()
    ensures Fits(Header("daemon")) && Fits(Header("radio")) && Fits(Header("http")) && Fits(Header("rtl_tcp"))
    ensures Fits("")
  {
    hide Header;
    HeaderFits("daemon");
    HeaderFits("radio");
    HeaderFits("http");
    HeaderFits("rtl_tcp");
  }

  lemma NameIs(name: string)
    requires name in ["enabled", "mode", "bind", "port", "test_page"]
    ensures IsName(name) && OneLine(name)
  {
  }

  /** The longest path the title line has room for. */
  const MAX_PATH: nat := LINE_SIZE - 2 - 28

  lemma TitleFits(path: string)
    requires OneLine(path)
    ensures |path| <= MAX_PATH <==> Fits(TITLE + path + ")")
  {
  }

  /** The four sections set everything. */
  lemma RunSettings(s: State, c: Config)
    requires s.seen == {} && ValidConfig(c)
    ensures RunLines(s, SettingLines(c)).Next? && RunLines(s, SettingLines(c)).state.config == c
  {
    hide RunLines, DaemonLines, RadioLines, HttpLines, RtlTcpLines, ValidConfig;
    RunDaemon(s, c);
    var s1 := RunLines(s, DaemonLines(c)).state;
    RunConcat(s, DaemonLines(c), RadioLines(c) + (HttpLines(c) + RtlTcpLines(c)));
    RunRadio(s1, c);
    var s2 := RunLines(s1, RadioLines(c)).state;
    RunConcat(s1, RadioLines(c), HttpLines(c) + RtlTcpLines(c));
    RunHttp(s2, c);
    var s3 := RunLines(s2, HttpLines(c)).state;
    RunConcat(s2, HttpLines(c), RtlTcpLines(c));
    RunRtlTcp(s3, c);
  }

  /** Loading a printed configuration gives it back, whatever was set before. */
  lemma RoundTrip(c: Config, path: string, start: Config)
    requires ValidConfig(c) && OneLine(path) && |path| <= MAX_PATH
    ensures LoadResult(start, Contents(Printed(c, path)), false) == Loaded(c)
  {
    hide Line, Trimmed, Fits, RunLines, DaemonLines, RadioLines, HttpLines, RtlTcpLines, ValidConfig, LoadFrom;
    var title := TITLE + path + ")";
    var s0 := State(NoSection, {}, start);
    CommentLine(s0, title);
    TitleFits(path);
    PrintedFits(c);
    assert PrintedLines(c, path)[1..] == SettingLines(c);
    LoadFits(s0, title, Join(SettingLines(c)), 0);
    RunSettings(s0, c);
    LoadJoined(s0, SettingLines(c), 1);
  }

  // ---- what is refused ----

  /** A key may be set once: the same setting again is refused, whatever its value
      and wherever else the file has been in between. */
  lemma SecondIsDuplicate(s: State, name: string, value: string)
    requires IsName(name) && IsTrimmed(value) && s.section != NoSection
    requires KeyOf(s.section, name).Some? && KeyOf(s.section, name).value in s.seen
    ensures var o := Line(s, Trimmed(Setting(name, value))); o.Stop? && o.why == DuplicateKey
  {
    hide SetKey;
    SettingLine(s, name, value);
  }

  /** And the loader remembers every key it has set, and no other. */
  lemma SettingIsSeen(s: State, name: string, value: string)
    requires IsName(name) && IsTrimmed(value) && s.section != NoSection
    ensures var o := Line(s, Trimmed(Setting(name, value)));
            o.Next? ==>
              && KeyOf(s.section, name).Some? && KeyOf(s.section, name).value !in s.seen
              && o.state.seen == s.seen + {KeyOf(s.section, name).value} && o.state.section == s.section
  {
    hide SetKey;
    SettingLine(s, name, value);
  }

  /** The last line needs no newline. */
  lemma LastLineCounts(s: State, text: string, line: nat)
    requires OneLine(text) && 0 < |text| < LINE_SIZE - 1
    ensures LoadFrom(s, text, line) ==
            match Line(s, Trimmed(text))
            case Stop(config, why) => Failed(config, line + 1, why)
            case Next(next) => Loaded(next.config)
  {
    hide Line, Trimmed;
    FindIs(text, '\n', |text|);
    FindIs(text, '\0', |text|);
    assert Taken(text) == |text| && text[..|text|] == text && text[|text|..] == "";
  }

  /** A file that is not there is no error when that is allowed, and then changes
      nothing; one that cannot be opened always is. */
  lemma FileVerdict(start: Config)
    ensures LoadResult(start, Missing, true) == Loaded(start)
    ensures LoadResult(start, Missing, false) == Failed(start, 0, CannotOpen)
    ensures forall missingIsOk :: LoadResult(start, Unreadable, missingIsOk) == Failed(start, 0, CannotOpen)
    ensures forall missingIsOk :: LoadResult(start, Contents(""), missingIsOk) == Loaded(start)
  {
  }

  /** Which keys each section knows. */
  lemma KeysOfSections(name: string)
    ensures KeyOf(DaemonSection, name).Some? <==> name == "enabled"
    ensures KeyOf(RadioSection, name).Some? <==> name == "mode"
    ensures KeyOf(HttpSection, name).Some? <==> name in {"bind", "port", "test_page"}
    ensures KeyOf(RtlTcpSection, name).Some? <==> name in {"enabled", "bind", "port"}
    ensures KeyOf(NoSection, name).None?
    ensures SectionOf(name).Some? <==> name in {"daemon", "radio", "http", "rtl_tcp"}
  {
  }

  /** Blank lines and comments do nothing; a header is refused for its form or for
      its name, and otherwise changes the section alone. */
  lemma HeaderVerdict(s: State, text: string)
    ensures text == "" || text[0] == '#' || text[0] == ';' ==> Line(s, text) == Next(s)
    ensures text != "" && text[0] == '[' ==>
              var closed := |text| >= 3 && text[|text| - 1] == ']';
              && (Line(s, text) == Stop(s.config, MalformedHeader) <==> !closed)
              && (Line(s, text) == Stop(s.config, UnknownSection) <==>
                    closed && SectionOf(Trimmed(text[1..|text| - 1])).None?)
              && (Line(s, text).Next? ==> Line(s, text).state == s.(section := Line(s, text).state.section))
  {
    hide SetKey, KeyOf, Trimmed, Assign, SectionOf;
  }

  /** Anything else has to be a setting inside a section. */
  lemma SettingVerdict(s: State, text: string)
    requires text != "" && text[0] != '#' && text[0] != ';' && text[0] != '['
    ensures Line(s, text) == Stop(s.config, ExpectedSetting) <==> '=' !in text || s.section == NoSection
  {
    hide SetKey, KeyOf, Trimmed;
    var k := Find(text, '=');
    if k < |text| {
      assert text[k] in text;
    } else {
      assert text[..k] == text;
    }
  }

  /** Which values are accepted, key by key. */
  lemma ValueIsAccepted(c: Config, text: string)
    ensures SetKey(c, Bind, text).Some? <==> 1 <= |text| <= 63
    ensures SetKey(c, RtlBind, text).Some? <==> 1 <= |text| <= 63
    ensures SetKey(c, Mode, text).Some? <==> text in {"offline", "receive", "rx-tuning", "transmit"}
    ensures forall key <- {Enabled, TestPage, RtlEnabled} ::
              SetKey(c, key, text).Some? <==> text in {"true", "yes", "1", "false", "no", "0"}
    ensures text in {"true", "yes", "1"} ==>
              && SetKey(c, Enabled, text) == Some(c.(daemonEnabled := true))
              && SetKey(c, TestPage, text) == Some(c.(testPage := true))
              && SetKey(c, RtlEnabled, text) == Some(c.(rtlEnabled := true))
    ensures text in {"false", "no", "0"} ==>
              && SetKey(c, Enabled, text) == Some(c.(daemonEnabled := false))
              && SetKey(c, TestPage, text) == Some(c.(testPage := false))
              && SetKey(c, RtlEnabled, text) == Some(c.(rtlEnabled := false))
  {
    hide ParsePort;
  }

  /** The value is looked at first: a refused second setting of a key has changed
      the configuration all the same. */
  lemma DuplicateStillAssigns(s: State, name: string, value: string)
    requires IsName(name) && IsTrimmed(value) && s.section != NoSection
    requires KeyOf(s.section, name).Some? && KeyOf(s.section, name).value in s.seen
    ensures var changed := SetKey(s.config, KeyOf(s.section, name).value, value);
            Line(s, Trimmed(Setting(name, value))) ==
            Stop(if changed.Some? then changed.value else s.config, DuplicateKey)
  {
    hide SetKey;
    SettingLine(s, name, value);
  }

  // ---- what a load can produce ----

  /** A line's newline never survives trimming. */
  lemma TrimmedOneLine(raw: string)
    requires '\0' !in raw && forall k :: 0 <= k < |raw| - 1 ==> raw[k] != '\n'
    ensures OneLine(Trimmed(raw))
  {
    TrimLeftSpec(raw);
    TrimRightSpec(TrimLeft(raw));
    var text := Trimmed(raw);
    var offset := |raw| - |TrimLeft(raw)|;
    forall k | 0 <= k < |text|
      ensures text[k] != '\n' && text[k] != '\0'
    {
      assert text[k] == raw[offset + k];
      if k == |text| - 1 {
        assert !IsSpace(text[k]);
      }
    }
  }

  lemma TakenIsOneLine(data: string)
    requires data != ""
    ensures var raw := CString(data[..Taken(data)]);
            '\0' !in raw && forall k :: 0 <= k < |raw| - 1 ==> raw[k] != '\n'
  {
    var newline := Find(data, '\n');
    forall k | 0 <= k < newline
      ensures data[k] != '\n'
    {
      assert data[k] in data[..newline];
    }
  }

  /** What every value set by the loader satisfies. */
  lemma SetKeyKeepsValid(c: Config, key: Key, text: string)
    requires ValidConfig(c) && IsTrimmed(text) && OneLine(text)
    ensures SetKey(c, key, text).Some? ==> ValidConfig(SetKey(c, key, text).value)
  {
    hide ParseBool, ParseMode, ParsePort, IsTrimmed, OneLine;
  }

  lemma LineKeepsValid(s: State, text: string)
    requires ValidConfig(s.config) && OneLine(text)
    ensures match Line(s, text)
            case Next(next) => ValidConfig(next.config)
            case Stop(config, _) => ValidConfig(config)
  {
    hide SetKey, ValidConfig, Trimmed, KeyOf, SectionOf;
    if text != "" && text[0] !in "#;[" && Find(text, '=') < |text| && s.section != NoSection {
      var equals := Find(text, '=');
      var value := Trimmed(text[equals + 1..]);
      TrimmedSpec(text[equals + 1..]);
      var key := KeyOf(s.section, Trimmed(text[..equals]));
      if key.Some? {
        SetKeyKeepsValid(s.config, key.value, value);
      }
    }
  }

  /** Whatever the file holds, and wherever the load stops, a valid configuration
      stays valid. */
  lemma {:induction false} LoadKeepsValid(s: State, data: string, line: nat)
    requires ValidConfig(s.config)
    ensures ValidConfig(LoadFrom(s, data, line).config)
    decreases |data|
  {
    hide Line, ValidConfig, Trimmed, Taken, CString;
    if data != "" && !IsTooLong(data) {
      var raw := CString(data[..Taken(data)]);
      TakenIsOneLine(data);
      TrimmedOneLine(raw);
      LineKeepsValid(s, Trimmed(raw));
      match Line(s, Trimmed(raw))
      case Stop(_, _) =>
      case Next(next) => LoadKeepsValid(next, data[Taken(data)..], line + 1);
    }
  }

  // ---- what a load of a printed configuration proves about it ----

  /** The part of a configuration a key sets is valid. */
  predicate PartValid(c: Config, key: Key) {
    match key
    case Bind => ValidBind(c.httpBind)
    case Port => 0 < c.httpPort <= 65_535
    case RtlBind => ValidBind(c.rtlBind)
    case RtlPort => 0 < c.rtlPort <= 65_535
    case _ => true
  }

  predicate SeenValid(s: State) {
    forall key <- s.seen :: PartValid(s.config, key)
  }

  lemma SetKeyKeepsParts(c: Config, key: Key, text: string, other: Key)
    requires SetKey(c, key, text).Some? && IsTrimmed(text) && OneLine(text)
    ensures var changed := SetKey(c, key, text).value;
            PartValid(changed, key) && (PartValid(c, other) ==> PartValid(changed, other))
  {
    hide ParseBool, ParseMode, ParsePort, IsTrimmed, OneLine;
  }

  lemma AssignKeepsSeen(s: State, name: string, text: string)
    requires SeenValid(s) && IsTrimmed(text) && OneLine(text) && Assign(s, name, text).Next?
    ensures SeenValid(Assign(s, name, text).state) && s.seen <= Assign(s, name, text).state.seen
  {
    hide SetKey, KeyOf, PartValid, IsTrimmed, OneLine;
    var key := KeyOf(s.section, name).value;
    forall other | other in s.seen + {key}
      ensures PartValid(Assign(s, name, text).state.config, other)
    {
      SetKeyKeepsParts(s.config, key, text, other);
    }
  }

  lemma LineKeepsSeen(s: State, text: string)
    requires SeenValid(s) && OneLine(text) && Line(s, text).Next?
    ensures SeenValid(Line(s, text).state) && s.seen <= Line(s, text).state.seen
  {
    hide Trimmed, Assign, SectionOf, PartValid, OneLine, IsTrimmed, Find;
    if text != "" && text[0] !in "#;[" {
      var equals := Find(text, '=');
      var value := Trimmed(text[equals + 1..]);
      TrimmedSpec(text[equals + 1..]);
      StillOneLine(text, value);
      AssignKeepsSeen(s, Trimmed(text[..equals]), value);
    }
  }

  lemma StillOneLine(text: string, part: string)
    requires OneLine(text) && forall c <- part :: c in text
    ensures OneLine(part)
  {
  }

  /** A load that succeeds reads every line on its way to the end. */
  lemma NextLine(s: State, data: string, line: nat) returns (t: State)
    requires data != "" && SeenValid(s) && LoadFrom(s, data, line).Loaded?
    ensures !IsTooLong(data)
    ensures Line(s, Trimmed(CString(data[..Taken(data)]))) == Next(t)
    ensures SeenValid(t) && s.seen <= t.seen
    ensures LoadFrom(t, data[Taken(data)..], line + 1) == LoadFrom(s, data, line)
  {
    hide Line, Trimmed, Taken, CString, SeenValid;
    var text := Trimmed(CString(data[..Taken(data)]));
    TakenIsOneLine(data);
    TrimmedOneLine(CString(data[..Taken(data)]));
    t := Line(s, text).state;
    LineKeepsSeen(s, text);
  }

  /** So from any line break on it is a successful load from some state. */
  lemma {:induction false} SkipTo(s: State, before: string, rest: string, line: nat) returns (t: State, n: nat)
    requires SeenValid(s) && LoadFrom(s, before + "\n" + rest, line).Loaded?
    ensures SeenValid(t) && s.seen <= t.seen
    ensures LoadFrom(t, rest, n) == LoadFrom(s, before + "\n" + rest, line)
    decreases |before|
  {
    hide LoadFrom, Line, SeenValid, Find, Trimmed;
    var data := before + "\n" + rest;
    t := NextLine(s, data, line);
    var p := FirstBreak(before, rest);
    if p == |before| {
      assert data[p + 1..] == rest;
      n := line + 1;
    } else {
      assert data[p + 1..] == before[p + 1..] + "\n" + rest;
      t, n := SkipTo(t, before[p + 1..], rest, line + 1);
    }
  }

  /** Where the first line ends, if it is not too long. */
  lemma FirstBreak(before: string, rest: string) returns (p: nat)
    requires !IsTooLong(before + "\n" + rest)
    ensures p <= |before| && p == Find(before + "\n" + rest, '\n')
    ensures Taken(before + "\n" + rest) == p + 1
  {
    var data := before + "\n" + rest;
    p := Find(data, '\n');
    FindAtMost(data, '\n', |before|);
    LongLine(data);
  }

  lemma LongLine(data: string)
    ensures var p := Find(data, '\n'); p < |data| && p + 1 >= LINE_SIZE ==> IsTooLong(data)
  {
    var p := Find(data, '\n');
    if p < |data| && p + 1 >= LINE_SIZE {
      var kept := CString(data[..Taken(data)]);
      assert forall k :: 0 <= k < |kept| ==> kept[k] == data[..p][k];
    }
  }

  lemma {:induction false} FindAtMost(s: string, c: char, k: nat)
    requires k < |s| && s[k] == c
    ensures Find(s, c) <= k
  {
    if k > 0 {
      FindAtMost(s[1..], c, k - 1);
    }
  }

  lemma {:induction false} FindAtLeast(s: string, c: char, k: nat)
    requires k <= |s| && c !in s[..k]
    ensures Find(s, c) >= k
  {
    if k > 0 {
      assert s[..k] == [s[0]] + s[1..][..k - 1];
      FindAtLeast(s[1..], c, k - 1);
    }
  }

  lemma {:induction false} KeepsThrough(s: string, k: nat)
    requires k < |s| && !IsSpace(s[k])
    ensures k < |TrimRight(s)| <= |s| && TrimRight(s) == s[..|TrimRight(s)|]
  {
    if IsSpace(s[|s| - 1]) {
      KeepsThrough(s[..|s| - 1], k);
    }
  }

  /** The line that starts with a name and an equals sign is a setting of that name. */
  lemma NamedText(name: string, raw: string)
    requires IsName(name) && OneLine(name) && |name| < |raw| && raw[..|name| + 1] == name + "="
    ensures var text := Trimmed(CString(raw));
            && text != "" && text[0] !in "#;[" && Find(text, '=') == |name| < |text|
            && text[..|name|] == name
  {
    var k := |name|;
    FindAtLeast(raw, '\0', k + 1);
    var c := CString(raw);
    assert c[..k + 1] == name + "=" && c[0] == name[0];
    assert TrimLeft(c) == c;
    KeepsThrough(c, k);
    var text := Trimmed(c);
    assert text[..k] == c[..k] == name && text[k] == '=';
    FindIs(text, '=', k);
  }

  /** Reading a printed setting on the way to what follows it: some key of the
      section has that name, and it is seen now for the first time. A value on
      one line leaves the section as it was. */
  lemma ReadSetting(s: State, name: string, value: string, rest: string, line: nat) returns (t: State, n: nat)
    requires IsName(name) && OneLine(name) && |name| < 100
    requires SeenValid(s) && LoadFrom(s, Setting(name, value) + "\n" + rest, line).Loaded?
    ensures KeyOf(s.section, name).Some? && KeyOf(s.section, name).value !in s.seen
    ensures SeenValid(t) && s.seen + {KeyOf(s.section, name).value} <= t.seen
    ensures '\n' !in value ==> t.section == s.section
    ensures LoadFrom(t, rest, n) == LoadFrom(s, Setting(name, value) + "\n" + rest, line)
  {
    hide LoadFrom, SeenValid, Find, Trimmed, SetKey, KeyOf, IsTrimmed, CString;
    var before := Setting(name, value);
    var data := before + "\n" + rest;
    t := NextLine(s, data, line);
    var p := FirstBreak(before, rest);
    BreakAfterName(name, value, rest);
    var raw := data[..Taken(data)];
    assert raw[..|name| + 1] == name + "=";
    NamedText(name, raw);
    TrimmedSpec(name);
    n := line + 1;
    if p == |before| {
      assert data[p + 1..] == rest;
    } else {
      assert before[p] == data[p] == '\n';
      assert data[p + 1..] == before[p + 1..] + "\n" + rest;
      assert before[p] in value;
      t, n := SkipTo(t, before[p + 1..], rest, line + 1);
    }
  }

  lemma BreakAfterName(name: string, value: string, rest: string)
    requires OneLine(name)
    ensures var p := Find(Setting(name, value) + "\n" + rest, '\n');
            |name| < p && (p < |Setting(name, value)| ==> '\n' in value)
  {
    var before := Setting(name, value);
    var data := before + "\n" + rest;
    var p := Find(data, '\n');
    assert data[..|name| + 1] == name + "=";
    FindAtLeast(data, '\n', |name| + 1);
    if p < |before| {
      assert data[p] == value[p - |name| - 1];
    }
  }

  /** Reading a printed header. */
  lemma ReadHeader(s: State, name: string, section: Section, rest: string, line: nat)
    requires SectionOf(name) == Some(section) && name != "" && IsTrimmed(name) && OneLine(name) && |name| < 100
    ensures LoadFrom(s, Header(name) + "\n" + rest, line) == LoadFrom(s.(section := section), rest, line + 1)
  {
    hide LoadFrom, Line, Trimmed, IsTrimmed, SectionOf;
    HeaderLine(s, name, section);
    LoadWholeLine(s, Header(name), rest, line);
  }

  lemma {:induction false} JoinConcat(a: seq<string>, b: seq<string>)
    ensures Join(a + b) == Join(a) + Join(b)
    decreases |a|
  {
    if a == [] {
      assert a + b == b;
    } else {
      JoinConcat(a[1..], b);
      assert (a + b)[1..] == a[1..] + b;
    }
  }

  lemma JoinFirst(first: string, lines: seq<string>, rest: string)
    ensures Join([first] + lines) + rest == first + "\n" + (Join(lines) + rest)
    ensures Join([]) + rest == rest
  {
    assert ([first] + lines)[1..] == lines;
  }

  /** Printed lines end at line breaks. */
  lemma {:induction false} JoinEnds(a: seq<string>) returns (body: string)
    requires a != []
    ensures Join(a) == body + "\n"
    decreases |a|
  {
    if |a| == 1 {
      body := a[0];
      assert Join(a) == a[0] + "\n" + Join(a[1..]) && a[1..] == [];
    } else {
      var last := JoinEnds(a[1..]);
      body := a[0] + "\n" + last;
    }
  }

  /** From the http section on, a successful load has set its bind and port to valid values. */
  lemma ReadHttp(s: State, c: Config, rest: string, line: nat) returns (t: State, n: nat)
    requires SeenValid(s) && LoadFrom(s, Join(HttpLines(c)) + rest, line).Loaded?
    ensures SeenValid(t) && Bind in t.seen && Port in t.seen
    ensures LoadFrom(t, rest, n) == LoadFrom(s, Join(HttpLines(c)) + rest, line)
  {
    hide LoadFrom, SeenValid, Decimal, BoolName, Header, Setting, IsTrimmed, OneLine;
    NameIs("bind");
    NameIs("port");
    NameIs("test_page");
    BoolReadsBack(c.testPage);
    DecimalOneLine(c.httpPort);
    var tail3 := "" + "\n" + rest;
    var tail2 := Setting("test_page", BoolName(c.testPage)) + "\n" + tail3;
    var tail1 := Setting("port", Decimal(c.httpPort)) + "\n" + tail2;
    var tail0 := Setting("bind", c.httpBind) + "\n" + tail1;
    assert Join(HttpLines(c)) + rest == Header("http") + "\n" + tail0 by {
      HttpJoined(c, rest);
    }
    HttpHeader(s, tail0, line);
    t, n := ReadSetting(s.(section := HttpSection), "bind", c.httpBind, tail1, line + 1);
    assert Bind in t.seen;
    var u := t;
    t, n := ReadSetting(t, "port", Decimal(c.httpPort), tail2, n);
    var v := t;
    t, n := ReadSetting(t, "test_page", BoolName(c.testPage), tail3, n);
    assert u.section == v.section == HttpSection;
    t, n := SkipTo(t, "", rest, n);
  }

  lemma HttpHeader(s: State, tail: string, line: nat)
    ensures LoadFrom(s, Header("http") + "\n" + tail, line) ==
            LoadFrom(s.(section := HttpSection), tail, line + 1)
    ensures SeenValid(s) ==> SeenValid(s.(section := HttpSection))
  {
    ReadHeader(s, "http", HttpSection, tail, line);
  }

  lemma HttpJoined(c: Config, rest: string)
    ensures Join(HttpLines(c)) + rest ==
            Header("http") + "\n" + (Setting("bind", c.httpBind) + "\n" + (Setting("port", Decimal(c.httpPort)) + "\n" +
            (Setting("test_page", BoolName(c.testPage)) + "\n" + ("" + "\n" + rest))))
  {
    hide Header, Setting, Decimal, BoolName, Join;
    var bind, port := Setting("bind", c.httpBind), Setting("port", Decimal(c.httpPort));
    var page := Setting("test_page", BoolName(c.testPage));
    JoinFirst("", [], rest);
    JoinFirst(page, [""], rest);
    JoinFirst(port, [page, ""], rest);
    JoinFirst(bind, [port, page, ""], rest);
    JoinFirst(Header("http"), [bind, port, page, ""], rest);
    assert [""] + [] == [""] && [page] + [""] == [page, ""] && [port] + [page, ""] == [port, page, ""];
    assert [bind] + [port, page, ""] == [bind, port, page, ""];
    assert HttpLines(c) == [Header("http")] + [bind, port, page, ""];
  }

  lemma DecimalOneLine(n: nat)
    ensures OneLine(Decimal(n))
  {
  }

  /** And from the rtl_tcp section on, if the http port has been seen. */
  lemma ReadRtlTcp(s: State, c: Config, line: nat) returns (t: State, n: nat)
    requires SeenValid(s) && Port in s.seen && LoadFrom(s, Join(RtlTcpLines(c)), line).Loaded?
    ensures SeenValid(t) && s.seen <= t.seen && RtlBind in t.seen && RtlPort in t.seen
    ensures LoadFrom(s, Join(RtlTcpLines(c)), line) == Loaded(t.config)
  {
    hide LoadFrom, SeenValid, Decimal, BoolName, Header, Setting, IsTrimmed, OneLine;
    NameIs("enabled");
    NameIs("bind");
    NameIs("port");
    BoolReadsBack(c.rtlEnabled);
    DecimalOneLine(c.rtlPort);
    var tail2 := Setting("port", Decimal(c.rtlPort)) + "\n" + "";
    var tail1 := Setting("bind", c.rtlBind) + "\n" + tail2;
    var tail0 := Setting("enabled", BoolName(c.rtlEnabled)) + "\n" + tail1;
    assert Join(RtlTcpLines(c)) == Header("rtl_tcp") + "\n" + tail0 by {
      RtlTcpJoined(c);
    }
    RtlTcpHeader(s, tail0, line);
    t, n := ReadSetting(s.(section := RtlTcpSection), "enabled", BoolName(c.rtlEnabled), tail1, line + 1);
    t, n := ReadSetting(t, "bind", c.rtlBind, tail2, n);
    t, n := ReadSetting(t, "port", Decimal(c.rtlPort), "", n);
    NothingLeft(t, n);
  }

  lemma RtlTcpHeader(s: State, tail: string, line: nat)
    ensures LoadFrom(s, Header("rtl_tcp") + "\n" + tail, line) ==
            LoadFrom(s.(section := RtlTcpSection), tail, line + 1)
    ensures SeenValid(s) ==> SeenValid(s.(section := RtlTcpSection))
  {
    ReadHeader(s, "rtl_tcp", RtlTcpSection, tail, line);
  }

  lemma RtlTcpJoined(c: Config)
    ensures Join(RtlTcpLines(c)) ==
            Header("rtl_tcp") + "\n" + (Setting("enabled", BoolName(c.rtlEnabled)) + "\n" +
            (Setting("bind", c.rtlBind) + "\n" + (Setting("port", Decimal(c.rtlPort)) + "\n" + "")))
  {
    hide Header, Setting, Decimal, BoolName, Join;
    var enabled, bind := Setting("enabled", BoolName(c.rtlEnabled)), Setting("bind", c.rtlBind);
    var port := Setting("port", Decimal(c.rtlPort));
    JoinFirst(port, [], "");
    JoinFirst(bind, [port], "");
    JoinFirst(enabled, [bind, port], "");
    JoinFirst(Header("rtl_tcp"), [enabled, bind, port], "");
    assert [port] + [] == [port] && [bind] + [port] == [bind, port] && [enabled] + [bind, port] == [enabled, bind, port];
    assert RtlTcpLines(c) == [Header("rtl_tcp")] + [enabled, bind, port];
    assert Join(RtlTcpLines(c)) + "" == Join(RtlTcpLines(c));
  }

  lemma NothingLeft(s: State, line: nat)
    ensures LoadFrom(s, "", line) == Loaded(s.config)
  {
  }

  /** Whatever was set before, a printed configuration that loads back is valid. */
  lemma LoadedIsValid(c: Config, path: string, start: Config)
    requires LoadResult(start, Contents(Printed(c, path)), false) == Loaded(c)
    ensures ValidConfig(c)
  {
    hide LoadFrom, DaemonLines, RadioLines, HttpLines, RtlTcpLines, Join;
    var s0 := State(NoSection, {}, start);
    var first := [TITLE + path + ")"] + (DaemonLines(c) + RadioLines(c));
    var rest := Join(HttpLines(c)) + Join(RtlTcpLines(c));
    var body := JoinEnds(first);
    assert Printed(c, path) == body + "\n" + rest by {
      JoinConcat(first, HttpLines(c) + RtlTcpLines(c));
      JoinConcat(HttpLines(c), RtlTcpLines(c));
      assert PrintedLines(c, path) == first + (HttpLines(c) + RtlTcpLines(c));
    }
    var t, n := SkipTo(s0, body, rest, 0);
    t, n := ReadHttp(t, c, Join(RtlTcpLines(c)), n);
    t, n := ReadRtlTcp(t, c, n);
  }

  /** From any starting point the round trip holds exactly for the valid
      configurations whose path fits on the title line. */
  lemma RoundTripIff(c: Config, path: string, start: Config)
    requires OneLine(path)
    ensures LoadResult(start, Contents(Printed(c, path)), false) == Loaded(c) <==>
            ValidConfig(c) && |path| <= MAX_PATH
  {
    hide ValidConfig, LoadFrom, SettingLines;
    var s0 := State(NoSection, {}, start);
    if |path| > MAX_PATH {
      var title := TITLE + path + ")";
      assert PrintedLines(c, path)[1..] == SettingLines(c);
      LoadLongLine(s0, title, Join(SettingLines(c)), 0);
    } else if ValidConfig(c) {
      RoundTrip(c, path, start);
    } else if LoadResult(start, Contents(Printed(c, path)), false) == Loaded(c) {
      LoadedIsValid(c, path, start);
    }
  }
}
