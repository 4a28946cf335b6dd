/**
 The node's configuration file: what saving writes and what parsing reads back. Strings are sequences
 of ASCII characters and integers are 64 bits wide, as the parser and the printer treat them.
 */
module NodeConfig {
  import opened Options
  import opened Int64
  import opened Text

  const SECOND: int := 1_000_000_000
  const MAX_LINE: nat := 65535

  datatype Error = TooLong | NotAssignment | NotInteger | UnknownKey
  datatype Result<+T> = Ok(value: T) | Err(error: Error)

  /** The persisted fields; the two durations count nanoseconds. */
  datatype Config = Config(
    coordinatorURL: string, modelID: string, heartbeat: int, scheduleFrom: string, scheduleUntil: string,
    maxTemp: int, hardTemp: int, hysteresis: int, pauseIdle: int)

  // ---------------------------------------------------------------- saving: defaults

  function Normalised(c: Config): Config {
    var maxTemp := if c.maxTemp <= 0 then 78 else c.maxTemp;
    c.(heartbeat := if c.heartbeat <= 0 then 15 * SECOND else c.heartbeat,
       scheduleFrom := if c.scheduleFrom == "" then "00:00" else c.scheduleFrom,
       scheduleUntil := if c.scheduleUntil == "" then "00:00" else c.scheduleUntil,
       maxTemp := maxTemp,
       hardTemp := if c.hardTemp <= 0 || c.hardTemp <= maxTemp then Wrap(maxTemp + 10) else c.hardTemp,
       hysteresis := if c.hysteresis <= 0 then 5 else c.hysteresis,
       pauseIdle := if c.pauseIdle <= 0 then 300 * SECOND else c.pauseIdle)
  }

  method Normalise(cfg: Config) returns (r: Config)
    ensures r == Normalised(cfg)
  {
    r := cfg;
    if r.heartbeat <= 0 { r := r.(heartbeat := 15 * SECOND); }
    if r.scheduleFrom == "" { r := r.(scheduleFrom := "00:00"); }
    if r.scheduleUntil == "" { r := r.(scheduleUntil := "00:00"); }
    if r.maxTemp <= 0 { r := r.(maxTemp := 78); }
    if r.hardTemp <= 0 { r := r.(hardTemp := Wrap(r.maxTemp + 10)); }
    if r.hardTemp <= r.maxTemp { r := r.(hardTemp := Wrap(r.maxTemp + 10)); }
    if r.hysteresis <= 0 { r := r.(hysteresis := 5); }
    if r.pauseIdle <= 0 { r := r.(pauseIdle := 300 * SECOND); }
  }

  predicate IntsFit(c: Config) {
    Fits(c.heartbeat) && Fits(c.maxTemp) && Fits(c.hardTemp) && Fits(c.hysteresis) && Fits(c.pauseIdle)
  }

  /**
   Saving twice changes nothing more, and the limits come out in order exactly when the default hard limit
   does not overflow.
   */
  lemma NormalisedLaws(c: Config)
    requires IntsFit(c)
    ensures Normalised(Normalised(c)) == Normalised(c) && IntsFit(Normalised(c))
    ensures var n := Normalised(c);
            && n.heartbeat > 0 && n.maxTemp > 0 && n.hysteresis > 0 && n.pauseIdle > 0
            && (n.maxTemp < n.hardTemp <==> c.hardTemp > n.maxTemp || Fits(n.maxTemp + 10))
    ensures var n := Normalised(c);
            && n.coordinatorURL == c.coordinatorURL && n.modelID == c.modelID
            && (c.heartbeat > 0 ==> n.heartbeat == c.heartbeat) && (c.heartbeat <= 0 ==> n.heartbeat == 15_000_000_000)
            && (c.pauseIdle > 0 ==> n.pauseIdle == c.pauseIdle) && (c.pauseIdle <= 0 ==> n.pauseIdle == 300_000_000_000)
            && (c.maxTemp > 0 ==> n.maxTemp == c.maxTemp) && (c.maxTemp <= 0 ==> n.maxTemp == 78)
            && (c.hardTemp > n.maxTemp ==> n.hardTemp == c.hardTemp)
            && (c.hardTemp <= n.maxTemp ==> n.hardTemp == Wrap(n.maxTemp + 10))
            && (c.hysteresis > 0 ==> n.hysteresis == c.hysteresis) && (c.hysteresis <= 0 ==> n.hysteresis == 5)
            && (c.scheduleFrom != "" ==> n.scheduleFrom == c.scheduleFrom)
            && (c.scheduleUntil != "" ==> n.scheduleUntil == c.scheduleUntil)
            && (c.scheduleFrom == "" ==> n.scheduleFrom == "00:00")
            && (c.scheduleUntil == "" ==> n.scheduleUntil == "00:00")
  {
  }

  // ---------------------------------------------------------------- numbers

  function DigitChar(d: nat): (c: char)
    requires d < 10
    ensures '0' <= c <= '9'
  {
    '0' + d as char
  }

  function DigitValue(c: char): (d: nat)
    requires '0' <= c <= '9'
    ensures d < 10
  {
    (c - '0') as nat
  }

  function DecimalNat(n: nat): (s: string)
    ensures s != [] && forall i | 0 <= i < |s| :: '0' <= s[i] <= '9'
  {
    if n < 10 then [DigitChar(n)] else DecimalNat(n / 10) + [DigitChar(n % 10)]
  }

  /** The verb %d. */
  function Decimal(n: int): (s: string)
    ensures s != []
  {
    if n < 0 then "-" + DecimalNat(-n) else DecimalNat(n)
  }

  function ParseNat(s: string): Option<nat> {
    if s == [] || !('0' <= s[|s| - 1] <= '9') then None
    else if |s| == 1 then Some(DigitValue(s[0]))
    else
      match ParseNat(s[..|s| - 1])
      case None => None
      case Some(n) => Some(n * 10 + DigitValue(s[|s| - 1]))
  }

  /** strconv.Atoi: an optional sign, digits, and a value that fits. */
  function Atoi(s: string): Option<int> {
    var unsigned := if s != [] && (s[0] == '-' || s[0] == '+') then s[1..] else s;
    match ParseNat(unsigned)
    case None => None
    case Some(n) =>
      var v: int := if s[0] == '-' then 0 - n else n;
      if Fits(v) then Some(v) else None
  }

  lemma {:induction false} ParseDecimalNat(n: nat)
    ensures ParseNat(DecimalNat(n)) == Some(n)
  {
    if n >= 10 {
      ParseDecimalNat(n / 10);
      var s := DecimalNat(n / 10) + [DigitChar(n % 10)];
      assert s[..|s| - 1] == DecimalNat(n / 10);
    }
  }

  lemma AtoiNegative(n: nat)
    requires Fits(0 - n)
    ensures Atoi("-" + DecimalNat(n)) == Some(0 - n)
  {
    ParseDecimalNat(n);
    var s := "-" + DecimalNat(n);
    assert s[0] == '-' && s[1..] == DecimalNat(n);
  }

  lemma AtoiNonNegative(n: nat)
    requires Fits(n)
    ensures Atoi(DecimalNat(n)) == Some(n)
  {
    ParseDecimalNat(n);
    var s := DecimalNat(n);
    assert '0' <= s[0] <= '9';
  }

  lemma AtoiDecimal(n: int)
    requires Fits(n)
    ensures Atoi(Decimal(n)) == Some(n)
  {
    if n < 0 {
      var m: nat := 0 - n;
      AtoiNegative(m);
      assert Decimal(n) == "-" + DecimalNat(m);
    } else {
      AtoiNonNegative(n);
    }
  }

  // ---------------------------------------------------------------- quoting

  predicate IsQuote(c: char) {
    c == '"'
  }

  predicate Printable(s: string) {
    forall i | 0 <= i < |s| :: ' ' <= s[i] <= '~'
  }

  function Escape(s: string): string {
    if s == [] then []
    else Escape(s[..|s| - 1]) + (if s[|s| - 1] == '"' || s[|s| - 1] == '\\' then ['\\', s[|s| - 1]] else [s[|s| - 1]])
  }

  /** The verb %q on printable ASCII. */
  function Quote(s: string): string {
    "\"" + Escape(s) + "\""
  }

  /** What the parser does instead of unquoting: strip quotes from both ends. */
  function Unquote(s: string): string {
    Trim(s, IsQuote)
  }

  predicate Plain(s: string) {
    forall i | 0 <= i < |s| :: s[i] != '"' && s[i] != '\\'
  }

  lemma {:induction false} EscapePlain(s: string)
    requires Plain(s)
    ensures Escape(s) == s
  {
    if s != [] {
      EscapePlain(s[..|s| - 1]);
      assert s == s[..|s| - 1] + [s[|s| - 1]];
    }
  }

  lemma UnquotePlain(s: string)
    requires Plain(s)
    ensures Unquote(Quote(s)) == s
  {
    EscapePlain(s);
    assert Quote(s) == ['"'] + (s + ['"']);
    TrimLeading('"', s + ['"'], IsQuote);
    if s == [] {
      assert s + ['"'] == ['"'] + [];
      TrimLeading('"', [], IsQuote);
    } else {
      TrimTrailing(s, '"', IsQuote);
      TrimNothing(s, IsQuote);
    }
  }

  function Count(c: char, s: string): nat {
    if s == [] then 0 else Count(c, s[..|s| - 1]) + if s[|s| - 1] == c then 1 else 0
  }

  lemma {:induction false} CountConcat(c: char, s: string, t: string)
    ensures Count(c, s + t) == Count(c, s) + Count(c, t)
  {
    if t == [] {
      assert s + t == s;
    } else {
      CountConcat(c, s, t[..|t| - 1]);
      assert (s + t)[..|s + t| - 1] == s + t[..|t| - 1];
    }
  }

  lemma {:induction false} CountZero(c: char, s: string)
    ensures Count(c, s) == 0 <==> forall i | 0 <= i < |s| :: s[i] != c
  {
    if s != [] {
      CountZero(c, s[..|s| - 1]);
    }
  }

  lemma CountShort(c: char, a: char, b: char)
    ensures Count(c, [b]) == if b == c then 1 else 0
    ensures Count(c, [a, b]) == (if a == c then 1 else 0) + (if b == c then 1 else 0)
  {
    assert [a, b][..1] == [a] && [a][..0] == [] && [b][..0] == [];
    assert Count(c, [a]) == if a == c then 1 else 0;
  }

  lemma {:induction false} EscapeBackslashes(s: string)
    ensures Count('\\', Escape(s)) == 2 * Count('\\', s) + Count('"', s)
  {
    if s != [] {
      var front, last := s[..|s| - 1], s[|s| - 1];
      EscapeBackslashes(front);
      var tail: string := if last == '"' || last == '\\' then ['\\', last] else [last];
      CountConcat('\\', Escape(front), tail);
      CountShort('\\', '\\', last);
    }
  }

  lemma {:induction false} TrimLeftBackslashes(s: string)
    ensures Count('\\', TrimLeft(s, IsQuote)) == Count('\\', s)
  {
    if s != [] && IsQuote(s[0]) {
      TrimLeftBackslashes(s[1..]);
      CountConcat('\\', [s[0]], s[1..]);
      assert [s[0]] + s[1..] == s && [s[0]][..0] == [];
    }
  }

  lemma {:induction false} TrimRightBackslashes(s: string)
    ensures Count('\\', TrimRight(s, IsQuote)) == Count('\\', s)
  {
    if s != [] && IsQuote(s[|s| - 1]) {
      TrimRightBackslashes(s[..|s| - 1]);
    }
  }

  lemma QuotedBackslashes(s: string)
    ensures Count('\\', Unquote(Quote(s))) == 2 * Count('\\', s) + Count('"', s)
  {
    TrimLeftBackslashes(Quote(s));
    TrimRightBackslashes(TrimLeft(Quote(s), IsQuote));
    CountConcat('\\', "\"" + Escape(s), "\"");
    CountConcat('\\', "\"", Escape(s));
    assert "\""[..0] == [];
    EscapeBackslashes(s);
  }

  /** A string survives quoting and the parser's stripping exactly when it has no quote and no backslash. */
  lemma QuoteRoundTripIff(s: string)
    ensures Unquote(Quote(s)) == s <==> Plain(s)
  {
    if Plain(s) {
      UnquotePlain(s);
    }
    QuotedBackslashes(s);
    CountZero('\\', s);
    CountZero('"', s);
  }

  // ---------------------------------------------------------------- entries and lines

  datatype Key =
    | CoordinatorURL | ModelID | Heartbeat | ScheduleFrom | ScheduleUntil | MaxTemp | HardTemp | Hysteresis | PauseIdle

  function Name(k: Key): string {
    match k
    case CoordinatorURL => "coordinator_url"
    case ModelID => "model_id"
    case Heartbeat => "heartbeat_interval_seconds"
    case ScheduleFrom => "schedule_from"
    case ScheduleUntil => "schedule_until"
    case MaxTemp => "max_temp_c"
    case HardTemp => "hard_temp_c"
    case Hysteresis => "thermal_hysteresis_c"
    case PauseIdle => "pause_idle_timeout_seconds"
  }

  function Lookup(name: string): Option<Key> {
    if name == "coordinator_url" then Some(CoordinatorURL)
    else if name == "model_id" then Some(ModelID)
    else if name == "heartbeat_interval_seconds" then Some(Heartbeat)
    else if name == "schedule_from" then Some(ScheduleFrom)
    else if name == "schedule_until" then Some(ScheduleUntil)
    else if name == "max_temp_c" then Some(MaxTemp)
    else if name == "hard_temp_c" then Some(HardTemp)
    else if name == "thermal_hysteresis_c" then Some(Hysteresis)
    else if name == "pause_idle_timeout_seconds" then Some(PauseIdle)
    else None
  }

  function Number(value: string): Result<int> {
    match Atoi(value)
    case None => Err(NotInteger)
    case Some(n) => Ok(n)
  }

  function Assign(c: Config, k: Key, value: string): Result<Config> {
    match k
    case CoordinatorURL => Ok(c.(coordinatorURL := value))
    case ModelID => Ok(c.(modelID := value))
    case ScheduleFrom => Ok(c.(scheduleFrom := value))
    case ScheduleUntil => Ok(c.(scheduleUntil := value))
    case _ =>
      match Number(value)
      case Err(e) => Err(e)
      case Ok(n) => Ok(AssignNumber(c, k, n))
  }

  function AssignNumber(c: Config, k: Key, n: int): Config {
    match k
    case Heartbeat => c.(heartbeat := Wrap(n * SECOND))
    case MaxTemp => c.(maxTemp := n)
    case HardTemp => c.(hardTemp := n)
    case Hysteresis => c.(hysteresis := n)
    case PauseIdle => c.(pauseIdle := Wrap(n * SECOND))
    case _ => c
  }

  function AssignNamed(c: Config, name: string, value: string): Result<Config> {
    match Lookup(name)
    case None => Err(UnknownKey)
    case Some(k) => Assign(c, k, value)
  }

  datatype Entry = Entry(name: string, value: string)

  function Line(e: Entry): string {
    e.name + " = " + e.value
  }

  /** Whether the floating-point sum of seconds and fraction comes out at the next second, for each duration. */
  datatype Rounding = Rounding(heartbeat: bool, pauseIdle: bool)

  /** The seconds of a duration, cut off from the floating-point number; only a fraction can be rounded up. */
  function Seconds(duration: int, up: bool): int {
    duration / SECOND + if up && duration % SECOND != 0 then 1 else 0
  }

  /** What saving writes for each field, in order. */
  function Entries(c: Config, up: Rounding): seq<Entry> {
    [Entry(Name(CoordinatorURL), Quote(c.coordinatorURL)), Entry(Name(ModelID), Quote(c.modelID)),
     Entry(Name(Heartbeat), Decimal(Seconds(c.heartbeat, up.heartbeat))),
     Entry(Name(ScheduleFrom), Quote(c.scheduleFrom)), Entry(Name(ScheduleUntil), Quote(c.scheduleUntil)),
     Entry(Name(MaxTemp), Decimal(c.maxTemp)), Entry(Name(HardTemp), Decimal(c.hardTemp)),
     Entry(Name(Hysteresis), Decimal(c.hysteresis)),
       Entry(Name(PauseIdle), Decimal(Seconds(c.pauseIdle, up.pauseIdle)))]
  }

  function Written(entries: seq<Entry>): string {
    if entries == [] then [] else Line(entries[0]) + "\n" + Written(entries[1..])
  }

  /** The file saving writes, after filling in the defaults. */
  function Saved(c: Config, up: Rounding): string {
    Written(Entries(Normalised(c), up))
  }

  // ---------------------------------------------------------------- parsing

  /** The position of the first c, or the end. */
  function Find(s: string, c: char): (i: nat)
    ensures i <= |s| && (i < |s| ==> s[i] == c) && forall j | 0 <= j < i :: s[j] != c
  {
    if s == [] || s[0] == c then 0 else 1 + Find(s[1..], c)
  }

  function DropCR(s: string): string {
    if s != [] && s[|s| - 1] == '\r' then s[..|s| - 1] else s
  }

  /** What a line of the file says. */
  datatype Piece = Nothing | Broken(error: Error) | Says(entry: Entry)

  function Understood(raw: string): Piece {
    var line := TrimSpace(raw);
    if line == "" || line[0] == '#' then Nothing
    else
      var i := Find(line, '=');
      if i == |line| then Broken(NotAssignment)
      else Says(Entry(TrimSpace(line[..i]), TrimSpace(line[i + 1..])))
  }

  /** What follows the line that ends at i. */
  function Rest(text: string, i: nat): string
    requires i <= |text|
  {
    if i < |text| then text[i + 1..] else []
  }

  /** The lines in order; a line beyond the scanner's buffer ends the scan. */
  function Pieces(text: string): seq<Piece>
    decreases |text|
  {
    if text == [] then []
    else
      var i := Find(text, '\n');
      if i > MAX_LINE then [Broken(TooLong)] else [Understood(DropCR(text[..i]))] + Pieces(Rest(text, i))
  }

  function Obeyed(c: Config, p: Piece): Result<Config> {
    match p
    case Nothing => Ok(c)
    case Broken(e) => Err(e)
    case Says(entry) => AssignNamed(c, entry.name, Unquote(entry.value))
  }

  function Applied(pieces: seq<Piece>, c: Config): Result<Config> {
    if pieces == [] then Ok(c)
    else
      var after := Obeyed(c, pieces[0]);
      if after.Err? then after else Applied(pieces[1..], after.value)
  }

  function Parse(text: string, c: Config): Result<Config> {
    Applied(Pieces(text), c)
  }

  lemma AppliedCons(p: Piece, pieces: seq<Piece>, c: Config)
    ensures Applied([p] + pieces, c) == if Obeyed(c, p).Err? then Obeyed(c, p) else Applied(pieces, Obeyed(c, p).value)
  {
    assert ([p] + pieces)[1..] == pieces;
  }

  /** The scanner's next line. */
  method NextLine(text: string) returns (i: nat)
    ensures i == Find(text, '\n')
  {
    i := 0;
    while i < |text| && text[i] != '\n'
      invariant i <= |text| && forall j | 0 <= j < i :: text[j] != '\n'
    {
      i := i + 1;
    }
    FindIs(text, '\n', i);
  }

  /** The scanner loop: one line at a time into the configuration being filled. */
  method ParseFile(text: string, base: Config) returns (r: Result<Config>)
    ensures r == Parse(text, base)
  {
    var cfg, rest := base, text;
    while rest != []
      invariant Applied(Pieces(rest), cfg) == Parse(text, base)
      decreases |rest|
    {
      var i := NextLine(rest);
      if i > MAX_LINE { return Err(TooLong); }
      var piece := Understood(DropCR(rest[..i]));
      AppliedCons(piece, Pieces(Rest(rest, i)), cfg);
      var after := Obeyed(cfg, piece);
      if after.Err? { return after; }
      cfg, rest := after.value, Rest(rest, i);
    }
    r := Ok(cfg);
  }

  // ---------------------------------------------------------------- reading lines back

  lemma FindIs(s: string, c: char, i: nat)
    requires i <= |s| && (i < |s| ==> s[i] == c) && forall j | 0 <= j < i :: s[j] != c
    ensures Find(s, c) == i
  {
  }

  /** Trimming leaves alone what begins and ends with something else. */
  predicate Snug(s: string) {
    s != [] && !IsSpace(s[0]) && !IsSpace(s[|s| - 1])
  }

  lemma SnugTrims(s: string)
    requires Snug(s)
    ensures TrimSpace(s) == s
  {
    TrimNothing(s, IsSpace);
  }

  lemma TrailingSpaceTrims(s: string)
    requires Snug(s)
    ensures TrimSpace(s + " ") == s
  {
    TrimNothing(s, IsSpace);
    TrimTrailing(s, ' ', IsSpace);
  }

  lemma LeadingSpaceTrims(s: string)
    requires Snug(s)
    ensures TrimSpace(" " + s) == s
  {
    TrimNothing(s, IsSpace);
    TrimLeading(' ', s, IsSpace);
  }

  predicate GoodName(name: string) {
    Snug(name) && name[0] != '#' && '=' !in name && '\n' !in name
  }

  /** An entry that makes one well-formed line. */
  predicate GoodEntry(e: Entry) {
    GoodName(e.name) && Snug(e.value) && '\n' !in e.value
  }

  lemma LineShape(e: Entry)
    requires GoodEntry(e)
    ensures var line, n := Line(e), |e.name|;
            && Snug(line) && line[0] != '#' && '\n' !in line
            && n + 2 <= |line| && line[..n + 1] == e.name + " " && line[n + 2..] == " " + e.value
               && Find(line, '=') == n + 1
  {
    var line, n := Line(e), |e.name|;
    assert line[0] == e.name[0] && line[|line| - 1] == e.value[|e.value| - 1];
    assert line[n + 1] == '=';
    forall j | 0 <= j < n + 1 ensures line[j] != '=' {
      assert j < n ==> line[j] == e.name[j] && e.name[j] in e.name;
    }
    FindIs(line, '=', n + 1);
  }

  /** Taking a line apart, once its pieces are known. */
  lemma TakenApart(line: string, i: nat, name: string, value: string)
    requires TrimSpace(line) == line && line != "" && line[0] != '#' && i < |line| && Find(line, '=') == i
    requires TrimSpace(line[..i]) == name && TrimSpace(line[i + 1..]) == value
    ensures Understood(line) == Says(Entry(name, value))
  {
  }

  lemma LineUnderstood(e: Entry)
    requires GoodEntry(e)
    ensures Understood(Line(e)) == Says(e)
  {
    LineShape(e);
    var line, i := Line(e), |e.name| + 1;
    SnugTrims(line);
    TrailingSpaceTrims(e.name);
    LeadingSpaceTrims(e.value);
    TakenApart(line, i, e.name, e.value);
  }

  predicate Short(e: Entry) {
    |Line(e)| <= MAX_LINE
  }

  /** The text begins with this line and goes on with `more`. */
  lemma FirstLine(line: string, more: string)
    requires Snug(line) && '\n' !in line
    ensures var text := line + "\n" + more;
            text != [] && Find(text, '\n') == |line| && DropCR(text[..|line|]) == line && Rest(text, |line|) == more
  {
    var text := line + "\n" + more;
    forall j | 0 <= j < |line| ensures text[j] != '\n' {
      assert text[j] == line[j] && line[j] in line;
    }
    assert text[|line|] == '\n';
    FindIs(text, '\n', |line|);
    assert text[..|line|] == line && text[|line| + 1..] == more;
  }

  lemma FirstPiece(e: Entry, more: string)
    requires GoodEntry(e)
    ensures Pieces(Line(e) + "\n" + more) == if Short(e) then [Says(e)] + Pieces(more) else [Broken(TooLong)]
  {
    LineShape(e);
    FirstLine(Line(e), more);
    LineUnderstood(e);
  }

  /** A written file with no line too long reads back as its entries. */
  lemma {:induction false} WrittenReadsBack(entries: seq<Entry>)
    requires forall i | 0 <= i < |entries| :: GoodEntry(entries[i]) && Short(entries[i])
    ensures Pieces(Written(entries)) == Sayings(entries)
    decreases |entries|
  {
    if entries != [] {
      var more := entries[1..];
      WrittenReadsBack(more);
      ReadOneMore(entries[0], more, Written(more));
      assert entries == [entries[0]] + more;
    }
  }

  lemma ReadOneMore(e: Entry, more: seq<Entry>, text: string)
    requires GoodEntry(e) && Short(e) && Pieces(text) == Sayings(more)
    ensures Pieces(Line(e) + "\n" + text) == Sayings([e] + more)
  {
    FirstPiece(e, text);
    assert Sayings([e] + more) == [Says(e)] + Sayings(more);
  }

  lemma {:induction false} LongLineBreaks(entries: seq<Entry>, k: nat)
    requires k < |entries| && !Short(entries[k]) && forall i | 0 <= i < |entries| :: GoodEntry(entries[i])
    ensures Broken(TooLong) in Pieces(Written(entries))
    decreases |entries|
  {
    var first, more := entries[0], entries[1..];
    if Short(first) {
      assert more[k - 1] == entries[k];
      LongLineBreaks(more, k - 1);
    }
    FirstBreaks(first, Written(more));
  }

  lemma FirstBreaks(e: Entry, more: string)
    requires GoodEntry(e) && (Short(e) ==> Broken(TooLong) in Pieces(more))
    ensures Broken(TooLong) in Pieces(Line(e) + "\n" + more)
  {
    FirstPiece(e, more);
  }

  function Sayings(entries: seq<Entry>): (r: seq<Piece>)
    ensures |r| == |entries| && forall i | 0 <= i < |r| :: r[i] == Says(entries[i])
  {
    seq(|entries|, i requires 0 <= i < |entries| => Says(entries[i]))
  }

  lemma {:induction false} BrokenFails(pieces: seq<Piece>, c: Config, e: Error)
    requires Broken(e) in pieces
    ensures Applied(pieces, c).Err?
    decreases |pieces|
  {
    if pieces[0] != Broken(e) {
      assert Broken(e) in pieces[1..] by {
        var i :| 0 <= i < |pieces| && pieces[i] == Broken(e);
        assert pieces[1..][i - 1] == Broken(e);
      }
      var after := Obeyed(c, pieces[0]);
      if after.Ok? {
        BrokenFails(pieces[1..], after.value, e);
      }
    }
  }

  // ---------------------------------------------------------------- the nine entries

  lemma TextNames(k: Key)
    requires k == CoordinatorURL || k == ModelID || k == ScheduleFrom || k == ScheduleUntil
    ensures GoodName(Name(k))
  {
  }

  lemma LimitNames(k: Key)
    requires k == MaxTemp || k == HardTemp || k == Hysteresis
    ensures GoodName(Name(k))
  {
  }

  lemma TimeNames(k: Key)
    requires k == Heartbeat || k == PauseIdle
    ensures GoodName(Name(k))
  {
  }

  lemma NamesAreGood(k: Key)
    ensures GoodName(Name(k))
  {
    if k == CoordinatorURL || k == ModelID || k == ScheduleFrom || k == ScheduleUntil {
      TextNames(k);
    } else if k == Heartbeat || k == PauseIdle {
      TimeNames(k);
    } else {
      LimitNames(k);
    }
  }

  lemma LookupName(k: Key)
    ensures Lookup(Name(k)) == Some(k)
  {
    assert "heartbeat_interval_seconds"[0] != "pause_idle_timeout_seconds"[0];
  }

  lemma {:induction false} EscapeStaysOnLine(s: string)
    requires Printable(s)
    ensures '\n' !in Escape(s)
  {
    if s != [] {
      EscapeStaysOnLine(s[..|s| - 1]);
    }
  }

  lemma QuotedIsGood(k: Key, s: string)
    requires Printable(s)
    ensures GoodEntry(Entry(Name(k), Quote(s)))
  {
    NamesAreGood(k);
    EscapeStaysOnLine(s);
    QuotedIsSnug(s);
  }

  lemma QuotedIsSnug(s: string)
    ensures Snug(Quote(s)) && ('\n' in Quote(s) ==> '\n' in Escape(s))
  {
    assert Quote(s)[0] == '"' && Quote(s)[|Quote(s)| - 1] == '"';
  }

  lemma DecimalIsSnug(n: int)
    ensures Snug(Decimal(n)) && '\n' !in Decimal(n) && Unquote(Decimal(n)) == Decimal(n)
  {
    var s := Decimal(n);
    forall i | 0 <= i < |s| ensures s[i] == '-' || '0' <= s[i] <= '9' {
      if n < 0 {
        assert i > 0 ==> s[i] == DecimalNat(-n)[i - 1];
      }
    }
  }

  lemma DecimalIsGood(k: Key, n: int)
    ensures GoodEntry(Entry(Name(k), Decimal(n)))
  {
    NamesAreGood(k);
    DecimalIsSnug(n);
  }

  /** A number's line is never too long: its digits are few. */
  lemma {:induction false} DecimalLength(n: nat, digits: nat, power: nat)
    requires n < power && 0 < digits && power == Tens(digits)
    ensures |DecimalNat(n)| <= digits
    decreases digits
  {
    if n >= 10 {
      DecimalLength(n / 10, digits - 1, Tens(digits - 1));
    }
  }

  function Tens(n: nat): nat {
    if n == 0 then 1 else 10 * Tens(n - 1)
  }

  lemma NumbersAreShort(k: Key, n: int)
    requires Fits(n)
    ensures Short(Entry(Name(k), Decimal(n)))
  {
    assert Tens(4) == 1_0000 && Tens(8) == 1_0000_0000 && Tens(12) == 1_0000_0000_0000
           && Tens(16) == 1_0000_0000_0000_0000;
    assert Tens(19) == 1000 * Tens(16);
    DecimalLength(if n < 0 then -n else n, 19, Tens(19));
    assert |Name(k)| <= 26;
  }

  // ---------------------------------------------------------------- filling the configuration

  function Fill(entries: seq<Entry>, c: Config): Result<Config> {
    if entries == [] then Ok(c)
    else
      var after := AssignNamed(c, entries[0].name, Unquote(entries[0].value));
      if after.Err? then after else Fill(entries[1..], after.value)
  }

  lemma {:induction false} SayingsFill(entries: seq<Entry>, c: Config)
    ensures Applied(Sayings(entries), c) == Fill(entries, c)
    decreases |entries|
  {
    if entries != [] {
      assert Sayings(entries)[1..] == Sayings(entries[1..]);
      var after := AssignNamed(c, entries[0].name, Unquote(entries[0].value));
      if after.Ok? {
        SayingsFill(entries[1..], after.value);
      }
    }
  }

  lemma FillStep(entries: seq<Entry>, k: nat, c: Config, c': Config)
    requires k < |entries| && AssignNamed(c, entries[k].name, Unquote(entries[k].value)) == Ok(c')
    ensures Fill(entries[k..], c) == Fill(entries[k + 1..], c')
  {
    assert entries[k..][0] == entries[k] && entries[k..][1..] == entries[k + 1..];
  }

  /** What comes back of each field. */
  function Reread(c: Config, up: Rounding): Config {
    Config(Unquote(Quote(c.coordinatorURL)), Unquote(Quote(c.modelID)),
      Wrap(Seconds(c.heartbeat, up.heartbeat) * SECOND),
           Unquote(Quote(c.scheduleFrom)), Unquote(Quote(c.scheduleUntil)), c.maxTemp, c.hardTemp, c.hysteresis,
           Wrap(Seconds(c.pauseIdle, up.pauseIdle) * SECOND))
  }

  /** The configuration once the first k entries are in. */
  function Filled(base: Config, r: Config, k: nat): Config {
    Config(if k > 0 then r.coordinatorURL else base.coordinatorURL, if k > 1 then r.modelID else base.modelID,
           if k > 2 then r.heartbeat else base.heartbeat, if k > 3 then r.scheduleFrom else base.scheduleFrom,
           if k > 4 then r.scheduleUntil else base.scheduleUntil, if k > 5 then r.maxTemp else base.maxTemp,
           if k > 6 then r.hardTemp else base.hardTemp, if k > 7 then r.hysteresis else base.hysteresis,
           if k > 8 then r.pauseIdle else base.pauseIdle)
  }

  lemma NamedText(c: Config, k: Key, value: string)
    ensures AssignNamed(c, Name(k), value) == Assign(c, k, value)
  {
    LookupName(k);
  }

  lemma NamedNumber(c: Config, k: Key, n: int)
    requires Fits(n) && k != CoordinatorURL && k != ModelID && k != ScheduleFrom && k != ScheduleUntil
    ensures AssignNamed(c, Name(k), Unquote(Decimal(n))) == Ok(AssignNumber(c, k, n))
  {
    LookupName(k);
    DecimalIsSnug(n);
    AtoiDecimal(n);
  }

  function KeyAt(k: nat): Key
    requires k < 9
  {
    if k == 0 then CoordinatorURL else if k == 1 then ModelID else if k == 2 then Heartbeat
    else if k == 3 then ScheduleFrom else if k == 4 then ScheduleUntil else if k == 5 then MaxTemp
    else if k == 6 then HardTemp else if k == 7 then Hysteresis else PauseIdle
  }

  /** The strings and the numbers that are written, by position. */
  function TextAt(c: Config, k: nat): string {
    if k == 0 then c.coordinatorURL else if k == 1 then c.modelID else if k == 3 then c.scheduleFrom
       else c.scheduleUntil
  }

  function NumberAt(c: Config, up: Rounding, k: nat): int {
    if k == 2 then Seconds(c.heartbeat, up.heartbeat) else if k == 5 then c.maxTemp else if k == 6 then c.hardTemp
    else if k == 7 then c.hysteresis else Seconds(c.pauseIdle, up.pauseIdle)
  }

  predicate IsTextAt(k: nat) {
    k == 0 || k == 1 || k == 3 || k == 4
  }

  lemma EntryAt(c: Config, up: Rounding, k: nat)
    requires k < 9
    ensures Entries(c, up)[k]
            == Entry(Name(KeyAt(k)), if IsTextAt(k) then Quote(TextAt(c, k)) else Decimal(NumberAt(c, up, k)))
  {
  }

  lemma NumbersFit(c: Config, up: Rounding, k: nat)
    requires IntsFit(c)
    ensures Fits(NumberAt(c, up, k))
  {
  }

  lemma TextFills(c: Config, up: Rounding, base: Config, k: nat)
    requires IsTextAt(k)
    ensures Assign(Filled(base, Reread(c, up), k), KeyAt(k), Unquote(Quote(TextAt(c, k))))
            == Ok(Filled(base, Reread(c, up), k + 1))
  {
  }

  lemma NumberFills(c: Config, up: Rounding, base: Config, k: nat)
    requires k < 9 && !IsTextAt(k)
    ensures AssignNumber(Filled(base, Reread(c, up), k), KeyAt(k), NumberAt(c, up, k))
            == Filled(base, Reread(c, up), k + 1)
  {
  }

  lemma EntryFills(c: Config, up: Rounding, base: Config, k: nat)
    requires k < 9 && IntsFit(c)
    ensures AssignNamed(Filled(base, Reread(c, up), k), Entries(c, up)[k].name, Unquote(Entries(c, up)[k].value))
            == Ok(Filled(base, Reread(c, up), k + 1))
  {
    EntryAt(c, up, k);
    var now := Filled(base, Reread(c, up), k);
    if IsTextAt(k) {
      NamedText(now, KeyAt(k), Unquote(Quote(TextAt(c, k))));
      TextFills(c, up, base, k);
    } else {
      NumbersFit(c, up, k);
      NamedNumber(now, KeyAt(k), NumberAt(c, up, k));
      NumberFills(c, up, base, k);
    }
  }

  lemma {:induction false} EntriesFill(c: Config, up: Rounding, base: Config, k: nat)
    requires k <= 9 && IntsFit(c)
    ensures Fill(Entries(c, up)[k..], Filled(base, Reread(c, up), k)) == Ok(Reread(c, up))
    decreases 9 - k
  {
    if k == 9 {
      assert Entries(c, up)[9..] == [];
    } else {
      EntryFills(c, up, base, k);
      FillStep(Entries(c, up), k, Filled(base, Reread(c, up), k), Filled(base, Reread(c, up), k + 1));
      EntriesFill(c, up, base, k + 1);
    }
  }

  // ---------------------------------------------------------------- the round trip

  predicate PrintableTexts(c: Config) {
    Printable(c.coordinatorURL) && Printable(c.modelID) && Printable(c.scheduleFrom) && Printable(c.scheduleUntil)
  }

  predicate AllShort(c: Config, up: Rounding) {
    forall k | 0 <= k < 9 :: Short(Entries(c, up)[k])
  }

  lemma EntriesAreGood(c: Config, up: Rounding, k: nat)
    requires k < 9 && PrintableTexts(c)
    ensures GoodEntry(Entries(c, up)[k])
  {
    EntryAt(c, up, k);
    if IsTextAt(k) {
      QuotedIsGood(KeyAt(k), TextAt(c, k));
    } else {
      DecimalIsGood(KeyAt(k), NumberAt(c, up, k));
    }
  }

  /**
   With every line within the scanner's buffer, loading gives the fields as the parser rereads them,
   whatever was there before.
   */
  lemma LoadRereads(c: Config, up: Rounding, base: Config)
    requires IntsFit(c) && PrintableTexts(c) && AllShort(c, up)
    ensures Parse(Written(Entries(c, up)), base) == Ok(Reread(c, up))
  {
    var entries := Entries(c, up);
    forall k | 0 <= k < 9 ensures GoodEntry(entries[k]) {
      EntriesAreGood(c, up, k);
    }
    WrittenReadsBack(entries);
    SayingsFill(entries, base);
    EntriesFill(c, up, base, 0);
    assert entries[0..] == entries && Filled(base, Reread(c, up), 0) == base;
  }

  lemma LongLineFails(c: Config, up: Rounding, base: Config)
    requires PrintableTexts(c) && !AllShort(c, up)
    ensures Parse(Written(Entries(c, up)), base).Err?
  {
    var k :| 0 <= k < 9 && !Short(Entries(c, up)[k]);
    var entries := Entries(c, up);
    forall i | 0 <= i < 9 ensures GoodEntry(entries[i]) {
      EntriesAreGood(c, up, i);
    }
    LongLineBreaks(entries, k);
    BrokenFails(Pieces(Written(entries)), base, TooLong);
  }

  predicate PlainTexts(c: Config) {
    Plain(c.coordinatorURL) && Plain(c.modelID) && Plain(c.scheduleFrom) && Plain(c.scheduleUntil)
  }

  /** The lines of plain texts, with their names and punctuation, fit the scanner's buffer. */
  predicate TextsFit(c: Config) {
    |c.coordinatorURL| <= MAX_LINE - 20 && |c.modelID| <= MAX_LINE - 13
    && |c.scheduleFrom| <= MAX_LINE - 18 && |c.scheduleUntil| <= MAX_LINE - 19
  }

  predicate WholeSeconds(c: Config) {
    c.heartbeat % SECOND == 0 && c.pauseIdle % SECOND == 0
  }

  lemma RereadIff(c: Config, up: Rounding)
    requires IntsFit(c) && c.heartbeat > 0 && c.pauseIdle > 0
    ensures Reread(c, up) == c <==> PlainTexts(c) && WholeSeconds(c)
  {
    QuoteRoundTripIff(c.coordinatorURL);
    QuoteRoundTripIff(c.modelID);
    QuoteRoundTripIff(c.scheduleFrom);
    QuoteRoundTripIff(c.scheduleUntil);
  }

  lemma PlainLineLength(k: Key, s: string)
    requires Plain(s)
    ensures |Line(Entry(Name(k), Quote(s)))| == |Name(k)| + 5 + |s|
  {
    EscapePlain(s);
  }

  lemma ShortIff(c: Config, up: Rounding)
    requires IntsFit(c) && PlainTexts(c)
    ensures AllShort(c, up) <==> TextsFit(c)
  {
    PlainLineLength(CoordinatorURL, c.coordinatorURL);
    PlainLineLength(ModelID, c.modelID);
    PlainLineLength(ScheduleFrom, c.scheduleFrom);
    PlainLineLength(ScheduleUntil, c.scheduleUntil);
    NumbersAreShort(Heartbeat, Seconds(c.heartbeat, up.heartbeat));
    NumbersAreShort(MaxTemp, c.maxTemp);
    NumbersAreShort(HardTemp, c.hardTemp);
    NumbersAreShort(Hysteresis, c.hysteresis);
    NumbersAreShort(PauseIdle, Seconds(c.pauseIdle, up.pauseIdle));
    assert Short(Entries(c, up)[0]) <==> |c.coordinatorURL| <= MAX_LINE - 20;
    assert Short(Entries(c, up)[1]) <==> |c.modelID| <= MAX_LINE - 13;
    assert Short(Entries(c, up)[3]) <==> |c.scheduleFrom| <= MAX_LINE - 18;
    assert Short(Entries(c, up)[4]) <==> |c.scheduleUntil| <= MAX_LINE - 19;
  }

  lemma WrittenLoadIff(n: Config, up: Rounding, base: Config)
    requires IntsFit(n) && PrintableTexts(n) && n.heartbeat > 0 && n.pauseIdle > 0
    ensures Parse(Written(Entries(n, up)), base) == Ok(n) <==> PlainTexts(n) && TextsFit(n) && WholeSeconds(n)
  {
    var read := Parse(Written(Entries(n, up)), base);
    assert read == Ok(n) <==> AllShort(n, up) && Reread(n, up) == n by {
      if AllShort(n, up) {
        LoadRereads(n, up, base);
      } else {
        LongLineFails(n, up, base);
      }
    }
    RereadIff(n, up);
    if PlainTexts(n) {
      ShortIff(n, up);
    }
  }

  /**
   Loading what saving wrote gives exactly the saved configuration with its defaults filled in,
   whatever the loader started from and however fractions are rounded, if and only if the texts have
   no quote and no backslash, their lines fit the scanner's buffer, and both durations are whole seconds.
   */
  lemma SaveThenLoadIff(c: Config, up: Rounding, base: Config)
    requires IntsFit(c) && PrintableTexts(c)
    ensures var n := Normalised(c);
            Parse(Saved(c, up), base) == Ok(n) <==> PlainTexts(n) && TextsFit(n) && WholeSeconds(n)
  {
    var n := Normalised(c);
    NormalisedLaws(c);
    WrittenLoadIff(n, up, base);
  }

  /** Plain texts come back, the durations as the seconds that were written. */
  lemma PlainTextsReread(c: Config, up: Rounding, base: Config)
    requires IntsFit(c) && PrintableTexts(c) && PlainTexts(c) && TextsFit(c)
    ensures Parse(Written(Entries(c, up)), base)
            == Ok(c.(heartbeat := Wrap(Seconds(c.heartbeat, up.heartbeat) * SECOND),
                     pauseIdle := Wrap(Seconds(c.pauseIdle, up.pauseIdle) * SECOND)))
  {
    ShortIff(c, up);
    LoadRereads(c, up, base);
    UnquotePlain(c.coordinatorURL);
    UnquotePlain(c.modelID);
    UnquotePlain(c.scheduleFrom);
    UnquotePlain(c.scheduleUntil);
  }

  /** A heartbeat of one and a half seconds. */
  function Fractional(): Config {
    Config("http://localhost", "m", 1_500_000_000, "22:00", "06:00", 78, 88, 5, 300 * SECOND)
  }

  lemma FractionalIsPlain(c: Config)
    requires c == Fractional()
    ensures PlainTexts(c) && PrintableTexts(c) && TextsFit(c) && IntsFit(c) && Normalised(c) == c
  {
  }

  lemma SecondsOfExample(up: bool)
    ensures Wrap(Seconds(1_500_000_000, up) * SECOND) == if up then 2 * SECOND else SECOND
    ensures Wrap(Seconds(300 * SECOND, up) * SECOND) == 300 * SECOND
  {
  }

  /** It does not come back: the file has one second, or two. */
  lemma FractionIsLost(c: Config, up: Rounding, base: Config)
    requires c == Fractional()
    ensures Parse(Saved(c, up), base)
            == Ok(c.(heartbeat := if up.heartbeat then 2 * SECOND else SECOND)) != Ok(Normalised(c))
  {
    FractionalIsPlain(c);
    PlainTextsReread(c, up, base);
    SecondsOfExample(up.heartbeat);
    SecondsOfExample(up.pauseIdle);
  }

  // ---------------------------------------------------------------- the text, and lines saving never writes

  /** Each text on a line of its own. */
  function Lines(texts: seq<string>): string {
    if texts == [] then [] else texts[0] + "\n" + Lines(texts[1..])
  }

  lemma {:induction false} WrittenLines(entries: seq<Entry>, texts: seq<string>)
    requires |texts| == |entries| && forall i | 0 <= i < |entries| :: texts[i] == Line(entries[i])
    ensures Written(entries) == Lines(texts)
    decreases |entries|
  {
    if entries != [] {
      WrittenLines(entries[1..], texts[1..]);
    }
  }

  /** The file line by line: nine assignments in this order, texts quoted, durations in seconds. */
  lemma SavedText(c: Config, up: Rounding)
    ensures var n := Normalised(c);
            Saved(c, up)
            == Lines(["coordinator_url = " + Quote(n.coordinatorURL),
                      "model_id = " + Quote(n.modelID),
                      "heartbeat_interval_seconds = " + Decimal(Seconds(n.heartbeat, up.heartbeat)),
                      "schedule_from = " + Quote(n.scheduleFrom),
                      "schedule_until = " + Quote(n.scheduleUntil),
                      "max_temp_c = " + Decimal(n.maxTemp),
                      "hard_temp_c = " + Decimal(n.hardTemp),
                      "thermal_hysteresis_c = " + Decimal(n.hysteresis),
                      "pause_idle_timeout_seconds = " + Decimal(Seconds(n.pauseIdle, up.pauseIdle))])
  {
    var entries := Entries(Normalised(c), up);
    var texts := seq(|entries|, i requires 0 <= i < |entries| => Line(entries[i]));
    WrittenLines(entries, texts);
    SameTexts(Normalised(c), up, texts);
  }

  lemma SameTexts(n: Config, up: Rounding, texts: seq<string>)
    requires |texts| == 9 && forall i | 0 <= i < 9 :: texts[i] == Line(Entries(n, up)[i])
    ensures texts == ["coordinator_url = " + Quote(n.coordinatorURL),
                      "model_id = " + Quote(n.modelID),
                      "heartbeat_interval_seconds = " + Decimal(Seconds(n.heartbeat, up.heartbeat)),
                      "schedule_from = " + Quote(n.scheduleFrom),
                      "schedule_until = " + Quote(n.scheduleUntil),
                      "max_temp_c = " + Decimal(n.maxTemp),
                      "hard_temp_c = " + Decimal(n.hardTemp),
                      "thermal_hysteresis_c = " + Decimal(n.hysteresis),
                      "pause_idle_timeout_seconds = " + Decimal(Seconds(n.pauseIdle, up.pauseIdle))]
  {
    forall k: Key ensures Name(k) + " = " == NameIs(k) {
      SpacedName(k);
    }
  }

  function NameIs(k: Key): string {
    match k
    case CoordinatorURL => "coordinator_url = "
    case ModelID => "model_id = "
    case Heartbeat => "heartbeat_interval_seconds = "
    case ScheduleFrom => "schedule_from = "
    case ScheduleUntil => "schedule_until = "
    case MaxTemp => "max_temp_c = "
    case HardTemp => "hard_temp_c = "
    case Hysteresis => "thermal_hysteresis_c = "
    case PauseIdle => "pause_idle_timeout_seconds = "
  }

  lemma SpacedName(k: Key)
    ensures Name(k) + " = " == NameIs(k)
  {
  }

  /** A text that begins with a line the scanner can hold is that line, then the rest. */
  lemma NextPiece(line: string, rest: string, c: Config)
    requires '\n' !in line && |line| <= MAX_LINE
    ensures var after := Obeyed(c, Understood(DropCR(line)));
            Parse(line + "\n" + rest, c) == if after.Err? then after else Parse(rest, after.value)
  {
    var text := line + "\n" + rest;
    forall j | 0 <= j < |line| ensures text[j] != '\n' {
      assert text[j] == line[j] && line[j] in line;
    }
    FindIs(text, '\n', |line|);
    assert text[..|line|] == line && text[|line| + 1..] == rest;
    AppliedCons(Understood(DropCR(line)), Pieces(rest), c);
  }

  /** Blank lines and lines that begin with a number sign say nothing; others must have an equals sign. */
  lemma SkippedOrBroken(line: string, rest: string, c: Config)
    requires '\n' !in line && |line| <= MAX_LINE
    ensures var t := TrimSpace(DropCR(line));
            && (t == "" || t[0] == '#' ==> Parse(line + "\n" + rest, c) == Parse(rest, c))
            && (t != "" && t[0] != '#' && '=' !in t ==> Parse(line + "\n" + rest, c) == Err(NotAssignment))
  {
    NextPiece(line, rest, c);
    var t := TrimSpace(DropCR(line));
    if t != "" && t[0] != '#' && '=' !in t {
      FindIs(t, '=', |t|);
    }
  }

  /** What a line assigns: which field, to what, or why not. */
  ghost predicate Assigns(c: Config, name: string, value: string, r: Result<Config>) {
    var number := Atoi(value);
    && (name == "coordinator_url" ==> r == Ok(c.(coordinatorURL := value)))
    && (name == "model_id" ==> r == Ok(c.(modelID := value)))
    && (name == "schedule_from" ==> r == Ok(c.(scheduleFrom := value)))
    && (name == "schedule_until" ==> r == Ok(c.(scheduleUntil := value)))
    && (name in NUMBERS && number.None? ==> r == Err(NotInteger))
    && (number.Some? ==>
          && (name == "heartbeat_interval_seconds" ==> r == Ok(c.(heartbeat := Wrap(number.value * 1_000_000_000))))
          && (name == "pause_idle_timeout_seconds" ==> r == Ok(c.(pauseIdle := Wrap(number.value * 1_000_000_000))))
          && (name == "max_temp_c" ==> r == Ok(c.(maxTemp := number.value)))
          && (name == "hard_temp_c" ==> r == Ok(c.(hardTemp := number.value)))
          && (name == "thermal_hysteresis_c" ==> r == Ok(c.(hysteresis := number.value))))
    && (name !in NUMBERS && name !in TEXTS ==> r == Err(UnknownKey))
  }

  const NUMBERS: set<string> :=
    {"heartbeat_interval_seconds", "pause_idle_timeout_seconds", "max_temp_c", "hard_temp_c", "thermal_hysteresis_c"}
  const TEXTS: set<string> := {"coordinator_url", "model_id", "schedule_from", "schedule_until"}

  lemma NamedAssigns(c: Config, name: string, value: string)
    ensures Assigns(c, name, value, AssignNamed(c, name, value))
  {
  }

  /** A line with an equals sign assigns what is right of the first one, without its quotes, to what is left of it. */
  lemma LineAssigns(line: string, rest: string, c: Config, key: string, value: string) returns (r: Result<Config>)
    requires '\n' !in line && |line| <= MAX_LINE && TrimSpace(DropCR(line)) == key + "=" + value
    requires '=' !in key && (key != "" ==> key[0] != '#')
    ensures Assigns(c, TrimSpace(key), Trim(TrimSpace(value), IsQuote), r)
    ensures Parse(line + "\n" + rest, c) == if r.Err? then r else Parse(rest, r.value)
  {
    var t := key + "=" + value;
    forall j | 0 <= j < |key| ensures t[j] != '=' {
      assert t[j] == key[j] && key[j] in key;
    }
    FindIs(t, '=', |key|);
    assert t[..|key|] == key && t[|key| + 1..] == value;
    assert t[0] == if key != "" then key[0] else '=';
    NextPiece(line, rest, c);
    r := AssignNamed(c, TrimSpace(key), Unquote(TrimSpace(value)));
    NamedAssigns(c, TrimSpace(key), Unquote(TrimSpace(value)));
  }
}
