/** The outcome of a soft-background shell (src/shell-timeout.ts): the launcher
    prints a private sentinel line after the command's own output, and the parser
    finds the last such line whatever the command printed itself. */
module ShellOutcome {

  import opened Decimal

  datatype Option<T> = None | Some(value: T)

  datatype Kind = Background | Timeout | Exit

  function Marker(kind: Kind): string {
    match kind
    case Background => "__CURSOR_SHELL_BACKGROUND__"
    case Timeout => "__CURSOR_SHELL_TIMEOUT__"
    case Exit => "__CURSOR_SHELL_EXIT__"
  }

  // ------------------------------------------------------------------- numbers

  function Signed(n: int): string {
    if n >= 0 then Digits(n) else "-" + Digits(-n)
  }

  /** `Number` of an optional sign and digits, without the rounding of binary
      floating point. */
  function SignedNumberOf(s: string): int {
    if s != "" && s[0] == '-' && AllDigits(s[1..]) then -(NumberOf(s[1..]) as int) else if AllDigits(s) then NumberOf(s) else 0
  }

  lemma SignedNumberOfSigned(n: int)
    ensures SignedNumberOf(Signed(n)) == n
  {
    if n >= 0 {
      NumberOfDigits(n);
    } else {
      NumberOfDigits(-n);
      assert Signed(n)[1..] == Digits(-n);
    }
  }

  // ------------------------------------------------------------------ patterns

  /** How many digits, or characters before a line end, a text starts with. */
  function DigitRun(t: string): (n: nat)
    ensures n <= |t| && AllDigits(t[..n])
  {
    if t != "" && IsDigit(t[0]) then 1 + DigitRun(t[1..]) else 0
  }

  predicate EndsLine(c: char) {
    c == '\r' || c == '\n'
  }

  function LineRun(t: string): (n: nat)
    ensures n <= |t| && forall i | 0 <= i < n :: !EndsLine(t[i])
  {
    if t != "" && !EndsLine(t[0]) then 1 + LineRun(t[1..]) else 0
  }

  /** What a pattern matched at the start of a text: how much, and its groups. */
  datatype Match = Match(length: nat, values: seq<string>)

  function MatchTimeout(t: string): Option<Match> {
    var n := DigitRun(t);
    if n == 0 then None else Some(Match(n, [t[..n]]))
  }

  function MatchExit(t: string): Option<Match> {
    var sign := if t != "" && t[0] == '-' then 1 else 0;
    var n := DigitRun(t[sign..]);
    if n == 0 then None else Some(Match(sign + n, [t[..sign + n]]))
  }

  /** Perhaps a pid and a colon, and the rest of the line; an absent pid is the
      empty text. */
  function MatchRest(rest: string): Option<Match> {
    var line, digits := LineRun(rest), DigitRun(rest);
    if 0 < digits < |rest| && rest[digits] == ':' && LineRun(rest[digits + 1..]) > 0 then
      var path := LineRun(rest[digits + 1..]);
      Some(Match(digits + 1 + path, [rest[..digits], rest[digits + 1..digits + 1 + path]]))
    else if line == 0 then None
    else Some(Match(line, ["", rest[..line]]))
  }

  /** A shell id, a colon, and that. */
  function MatchBackground(t: string): Option<Match> {
    var n := DigitRun(t);
    if n == 0 || n == |t| || t[n] != ':' then None
    else
      var r := MatchRest(t[n + 1..]);
      if r.None? then None else Some(Match(n + 1 + r.value.length, [t[..n]] + r.value.values))
  }

  function MatchValue(kind: Kind, t: string): Option<Match> {
    match kind
    case Background => MatchBackground(t)
    case Timeout => MatchTimeout(t)
    case Exit => MatchExit(t)
  }

  /** A sentinel at the very start of a text. */
  function MatchLine(kind: Kind, t: string): Option<Match> {
    var marker := Marker(kind);
    if !(marker <= t) then None
    else
      var v := MatchValue(kind, t[|marker|..]);
      if v.None? then None else Some(v.value.(length := |marker| + v.value.length))
  }

  predicate LineStart(s: string, i: nat) {
    i <= |s| && (i == 0 || s[i - 1] == '\n')
  }

  /** A sentinel stands on its own line at `i`. */
  predicate MarkerAt(s: string, kind: Kind, i: nat) {
    LineStart(s, i) && MatchLine(kind, s[i..]).Some?
  }

  function SentinelsUpTo(s: string, kind: Kind, i: nat): map<nat, Match>
    requires i <= |s|
    decreases i
  {
    var earlier := if i == 0 then map[] else SentinelsUpTo(s, kind, i - 1);
    if MarkerAt(s, kind, i) then earlier[i := MatchLine(kind, s[i..]).value] else earlier
  }

  /** Where the sentinels of a text start, and what they match. */
  function Sentinels(s: string, kind: Kind): map<nat, Match> {
    SentinelsUpTo(s, kind, |s|)
  }

  lemma {:induction false} SentinelUpTo(s: string, kind: Kind, i: nat, j: nat)
    requires i <= |s|
    ensures var m := SentinelsUpTo(s, kind, i);
            && (j in m <==> j <= i && MarkerAt(s, kind, j))
            && (j in m ==> m[j] == MatchLine(kind, s[j..]).value)
    decreases i
  {
    if i > 0 {
      SentinelUpTo(s, kind, i - 1, j);
    }
  }

  lemma SentinelAt(s: string, kind: Kind, j: nat)
    ensures j in Sentinels(s, kind) <==> MarkerAt(s, kind, j)
    ensures j in Sentinels(s, kind) ==> Sentinels(s, kind)[j] == MatchLine(kind, s[j..]).value
  {
    SentinelUpTo(s, kind, |s|, j);
  }

  /** The greatest key up to `i`. */
  function LastOf(m: map<nat, Match>, i: nat): (last: Option<nat>)
    ensures last.Some? ==> last.value <= i && last.value in m
    ensures forall j | j in m && j <= i :: last.Some? && j <= last.value
  {
    if i in m then Some(i) else if i == 0 then None else LastOf(m, i - 1)
  }

  /** The last sentinel of a text. */
  function LastMarker(s: string, kind: Kind): (last: Option<nat>)
    ensures last.Some? ==> last.value <= |s| && last.value in Sentinels(s, kind)
    ensures forall j | j in Sentinels(s, kind) && j <= |s| :: last.Some? && j <= last.value
  {
    LastOf(Sentinels(s, kind), |s|)
  }

  lemma MatchStaysInLine(kind: Kind, t: string, k: nat)
    requires MatchLine(kind, t).Some? && k < MatchLine(kind, t).value.length
    ensures MatchLine(kind, t).value.length <= |t| && !EndsLine(t[k])
  {
    var marker := Marker(kind);
    if k < |marker| {
      assert t[k] == marker[k];
    } else {
      ValueStaysInLine(kind, t[|marker|..], k - |marker|);
    }
    ValueFits(kind, t[|marker|..]);
  }

  lemma ValueFits(kind: Kind, t: string)
    requires MatchValue(kind, t).Some?
    ensures MatchValue(kind, t).value.length <= |t|
  {}

  lemma DigitsStayInLine(t: string, n: nat, k: nat)
    requires k < n <= |t| && AllDigits(t[..n])
    ensures !EndsLine(t[k])
  {
    assert t[..n][k] == t[k];
  }

  lemma ValueStaysInLine(kind: Kind, t: string, k: nat)
    requires MatchValue(kind, t).Some? && k < MatchValue(kind, t).value.length <= |t|
    ensures !EndsLine(t[k])
  {
    var n := DigitRun(t);
    match kind
    case Timeout => DigitsStayInLine(t, n, k);
    case Exit =>
      var sign := if t != "" && t[0] == '-' then 1 else 0;
      if k >= sign {
        DigitsStayInLine(t[sign..], DigitRun(t[sign..]), k - sign);
      }
    case Background =>
      if k < n {
        DigitsStayInLine(t, n, k);
      } else if k > n {
        assert t[k] == t[n + 1..][k - n - 1];
        RestStaysInLine(t[n + 1..], k - n - 1, MatchValue(kind, t).value.length - n - 1);
      }
  }

  lemma RestStaysInLine(rest: string, k: nat, length: nat)
    requires k < length <= |rest|
    requires length == LineRun(rest)
             || (DigitRun(rest) < |rest| && rest[DigitRun(rest)] == ':' && length == DigitRun(rest) + 1 + LineRun(rest[DigitRun(rest) + 1..]))
    ensures !EndsLine(rest[k])
  {
    if length != LineRun(rest) {
      PathStaysInLine(rest, DigitRun(rest), k);
    }
  }

  lemma PathStaysInLine(rest: string, digits: nat, k: nat)
    requires digits < |rest| && AllDigits(rest[..digits]) && rest[digits] == ':' && k < digits + 1 + LineRun(rest[digits + 1..])
    ensures !EndsLine(rest[k])
  {
    if k < digits {
      DigitsStayInLine(rest, digits, k);
    } else if k > digits {
      assert rest[k] == rest[digits + 1..][k - digits - 1];
    }
  }

  // ------------------------------------------------- the regular expression loop

  /** Sentinels stand at line starts and end in their own lines. */
  ghost predicate Lined(s: string, m: map<nat, Match>) {
    forall i | i in m :: LineStart(s, i) && 0 < m[i].length <= |s| - i && forall k | i <= k < i + m[i].length :: !EndsLine(s[k])
  }

  lemma SentinelSpan(s: string, kind: Kind, start: nat)
    requires MarkerAt(s, kind, start)
    ensures var end := start + MatchLine(kind, s[start..]).value.length;
            start < end <= |s| && forall i | start <= i < end :: !EndsLine(s[i])
  {
    var t := s[start..];
    var n := MatchLine(kind, t).value.length;
    assert n > 0 by { assert |Marker(kind)| > 0; }
    MatchStaysInLine(kind, t, 0);
    forall i | start <= i < start + n
      ensures !EndsLine(s[i])
    {
      MatchStaysInLine(kind, t, i - start);
      assert t[i - start] == s[i];
    }
  }

  lemma SentinelsLined(s: string, kind: Kind)
    ensures Lined(s, Sentinels(s, kind))
  {
    forall i | i in Sentinels(s, kind)
      ensures var end := i + Sentinels(s, kind)[i].length;
              LineStart(s, i) && i < end <= |s| && forall k | i <= k < end :: !EndsLine(s[k])
    {
      SentinelAt(s, kind, i);
      SentinelSpan(s, kind, i);
    }
  }

  /** Where a sentinel starts that `(?:^|\r?\n)` at `p` leads to, apart from `^`. */
  function AfterLineEnd(s: string, p: nat): Option<nat> {
    if p + 1 < |s| && s[p] == '\r' && s[p + 1] == '\n' then Some(p + 2)
    else if p < |s| && s[p] == '\n' then Some(p + 1) else None
  }

  /** One attempt of `(?:^|\r?\n)(sentinel)` at `p`: where the sentinel starts. */
  function MatchFrom(m: map<nat, Match>, s: string, p: nat): Option<nat> {
    if p == 0 && 0 in m then Some(0)
    else
      var start := AfterLineEnd(s, p);
      if start.Some? && start.value in m then start else None
  }

  /** Every sentinel either is `last` or earlier, or follows a line end at `p` or later. */
  ghost predicate Behind(m: map<nat, Match>, p: nat, last: Option<nat>) {
    && (last.Some? ==> last.value in m)
    && (forall j | j in m :: (last.Some? && j <= last.value) || (if j == 0 then p == 0 else j - 1 >= p))
  }

  lemma NoMatchHere(m: map<nat, Match>, s: string, p: nat, last: Option<nat>)
    requires p <= |s| && Lined(s, m) && Behind(m, p, last) && MatchFrom(m, s, p).None?
    ensures Behind(m, p + 1, last)
  {}

  lemma LineStartOutside(s: string, j: nat, from: nat, to: nat)
    requires LineStart(s, j) && to <= |s| && forall i | from <= i < to :: !EndsLine(s[i])
    ensures j <= from || j > to
  {}

  lemma MatchHere(m: map<nat, Match>, s: string, p: nat, last: Option<nat>, start: nat)
    requires p <= |s| && Lined(s, m) && Behind(m, p, last) && MatchFrom(m, s, p) == Some(start)
    requires last.Some? ==> last.value <= p
    ensures p <= start && start in m && Behind(m, start + m[start].length, Some(start))
  {
    forall j | j in m
      ensures j <= start || j - 1 >= start + m[start].length
    {
      LineStartOutside(s, j, start, start + m[start].length);
    }
  }

  method MatchAt(s: string, kind: Kind, start: nat) returns (found: Option<Match>)
    requires LineStart(s, start)
    ensures found == if start in Sentinels(s, kind) then Some(Sentinels(s, kind)[start]) else None
  {
    SentinelAt(s, kind, start);
    found := MatchLine(kind, s[start..]);
  }

  /** One attempt of the regular expression at `p`: where the sentinel starts and
      where its match ends. */
  method Attempt(s: string, kind: Kind, p: nat) returns (found: Option<(nat, nat)>)
    requires p <= |s|
    ensures var m := Sentinels(s, kind);
            match MatchFrom(m, s, p)
            case None => found == None
            case Some(start) => start in m && found == Some((start, start + m[start].length))
  {
    if p == 0 {
      var here := MatchAt(s, kind, 0);
      if here.Some? { return Some((0, here.value.length)); }
    }
    var start := AfterLineEnd(s, p);
    if start.None? { return None; }
    var line := MatchAt(s, kind, start.value);
    found := if line.None? then None else Some((start.value, start.value + line.value.length));
  }

  /** The `exec` loop finds the last sentinel that stands on its own line: each
      search resumes where the last match ended. */
  method LastPrivateMarker(s: string, kind: Kind) returns (last: Option<nat>)
    ensures last == LastMarker(s, kind)
  {
    ghost var m := Sentinels(s, kind);
    SentinelsLined(s, kind);
    last := None;
    var p := 0;
    while p <= |s|
      invariant p <= |s| + 1
      invariant Behind(m, p, last)
      invariant last.Some? ==> last.value <= p
      decreases |s| + 1 - p
    {
      var found := Attempt(s, kind, p);
      if found.Some? {
        MatchHere(m, s, p, last, found.value.0);
        last, p := Some(found.value.0), found.value.1;
      } else {
        NoMatchHere(m, s, p, last);
        p := p + 1;
      }
    }
  }

  // -------------------------------------------------------------------- parsing

  datatype Outcome =
    | Backgrounded(shellId: nat, pid: nat, outputFile: Option<string>)
    | TimedOut(timeoutMs: nat)
    | Exited(code: int)

  datatype Parsed = Parsed(output: string, outcome: Outcome)

  const MAX_PID: nat := 0xffff_ffff

  /** The text before the sentinel, less the one line feed the launcher put there. */
  function WithoutPrivateMarker(s: string, index: nat): string
    requires index <= |s|
  {
    if index > 0 && s[index - 1] == '\n' then s[..index - 1] else s[..index]
  }

  /** The groups of a sentinel's match. */
  function ValuesAt(s: string, kind: Kind, last: Option<nat>): seq<string>
  {
    if last.Some? && last.value in Sentinels(s, kind) then Sentinels(s, kind)[last.value].values else []
  }

  function Later(a: Option<nat>, b: Option<nat>): Option<nat> {
    if a.None? then b else if b.None? then a else if a.value >= b.value then a else b
  }

  function BackgroundOutcome(values: seq<string>): Option<Outcome> {
    if |values| != 3 || !AllDigits(values[0]) || !AllDigits(values[1]) then None
    else
      var shellId := NumberOf(values[0]);
      var pid := if values[1] == "" then shellId else NumberOf(values[1]);
      if 0 < pid <= MAX_PID
      then Some(Backgrounded(shellId, pid, if values[1] != "" && values[2] != "" then Some(values[2]) else None))
      else None
  }

  /** The sentinel found last of one kind, and its groups. */
  datatype Found = Found(index: Option<nat>, values: seq<string>)

  function FoundLast(s: string, kind: Kind): (f: Found)
    ensures f.index.Some? ==> f.index.value <= |s|
  {
    Found(LastMarker(s, kind), ValuesAt(s, kind, LastMarker(s, kind)))
  }

  function Decide(background: Found, timeout: Found, exit: Found): Option<(nat, Outcome)> {
    var final := Later(background.index, Later(timeout.index, exit.index));
    if background.index.Some? && background.index == final && BackgroundOutcome(background.values).Some?
    then Some((final.value, BackgroundOutcome(background.values).value))
    else if timeout.index.Some? && timeout.index == final && timeout.values != [] && AllDigits(timeout.values[0])
    then Some((final.value, TimedOut(NumberOf(timeout.values[0]))))
    else if exit.index.Some? && exit.index == final && exit.values != []
    then Some((final.value, Exited(SignedNumberOf(exit.values[0]))))
    else None
  }

  /** The sentinel that stands last decides; earlier ones are the command's own output. */
  function ParseSoftBackgroundOutcome(s: string): Option<Parsed> {
    var decided := Decide(FoundLast(s, Background), FoundLast(s, Timeout), FoundLast(s, Exit));
    if decided.None? || decided.value.0 > |s| then None
    else Some(Parsed(WithoutPrivateMarker(s, decided.value.0), decided.value.1))
  }

  // ----------------------------------------------------------------- round trip

  /** What the launcher appends to the command's output. */
  function Sentinel(kind: Kind, value: string): string {
    "\n" + Marker(kind) + value + "\n"
  }

  /** Diagnostics a host shell may print after the sentinel: no sentinel of their own. */
  ghost predicate NoMarkers(noise: string) {
    forall kind: Kind :: Sentinels(noise, kind) == map[]
  }

  /** Nothing after the sentinel is the ordinary case. */
  lemma NothingHasNoMarkers()
    ensures NoMarkers("")
  {
    forall kind: Kind
      ensures Sentinels("", kind) == map[]
    {
      assert |Marker(kind)| > 0;
    }
  }

  lemma {:induction false} DigitRunStops(d: string, rest: string)
    requires AllDigits(d) && (rest == "" || !IsDigit(rest[0]))
    ensures DigitRun(d + rest) == |d|
  {
    if d != "" {
      DigitRunStops(d[1..], rest);
      assert (d + rest)[1..] == d[1..] + rest;
    } else {
      assert d + rest == rest;
    }
  }

  lemma {:induction false} LineRunStops(line: string, rest: string)
    requires (forall i | 0 <= i < |line| :: !EndsLine(line[i])) && (rest == "" || EndsLine(rest[0]))
    ensures LineRun(line + rest) == |line|
  {
    if line != "" {
      LineRunStops(line[1..], rest);
      assert (line + rest)[1..] == line[1..] + rest;
    } else {
      assert line + rest == rest;
    }
  }

  predicate InLine(s: string) {
    forall i | 0 <= i < |s| :: !EndsLine(s[i])
  }

  lemma PrefixesAgree(a: string, b: string, t: string, k: nat)
    requires a <= t && b <= t && k < |a| && k < |b|
    ensures a[k] == b[k]
  {}

  lemma MarkersDiffer(kind: Kind, other: Kind, t: string)
    requires kind != other && Marker(kind) <= t
    ensures !(Marker(other) <= t)
  {
    if Marker(other) <= t {
      PrefixesAgree(Marker(kind), Marker(other), t, 15);
    }
  }

  /** How the pieces of the launcher's output lie. */
  ghost predicate Layout(s: string, stdout: string, line: string, noise: string) {
    && |s| == |stdout| + 1 + |line| + 1 + |noise|
    && s[..|stdout|] == stdout && s[|stdout|] == '\n'
    && s[|stdout| + 1..] == line + "\n" + noise
    && (forall i | 0 <= i < |line| :: s[|stdout| + 1 + i] == line[i])
    && s[|stdout| + 1 + |line|] == '\n'
    && s[|stdout| + 2 + |line|..] == noise
  }

  lemma LayoutOf(stdout: string, marker: string, value: string, noise: string)
    ensures Layout(stdout + ("\n" + marker + value + "\n") + noise, stdout, marker + value, noise)
  {
    var s := stdout + ("\n" + marker + value + "\n") + noise;
    var line := marker + value;
    assert s == stdout + ("\n" + (line + "\n" + noise));
    assert s[|stdout| + 1..] == line + "\n" + noise;
    forall i | 0 <= i < |line|
      ensures s[|stdout| + 1 + i] == line[i]
    {
      assert s[|stdout| + 1..][i] == (line + "\n" + noise)[i];
    }
    assert s[|stdout| + 2 + |line|..] == noise;
  }

  lemma SuffixMarker(s: string, noise: string, kind: Kind, after: nat, j: nat)
    requires after <= j <= |s| && s[after..] == noise && j in Sentinels(s, kind)
    ensures j - after in Sentinels(noise, kind)
  {
    SentinelAt(s, kind, j);
    SentinelAt(noise, kind, j - after);
    assert s[j..] == noise[j - after..];
    if j > after {
      assert s[j - 1] == noise[j - 1 - after];
    }
  }

  lemma MarkerHere(s: string, kind: Kind, j: nat)
    requires j in Sentinels(s, kind)
    ensures LineStart(s, j) && Marker(kind) <= s[j..]
  {
    SentinelAt(s, kind, j);
  }

  /** No sentinel's start lies inside the launcher's line, and only its own at its start. */
  lemma OnlyOwnSentinel(s: string, stdout: string, kind: Kind, line: string, noise: string, other: Kind, j: nat)
    requires Layout(s, stdout, line, noise) && InLine(line) && Marker(kind) <= line
    requires LineStart(s, j) && Marker(other) <= s[j..]
    ensures j < |stdout| + 1 || (j == |stdout| + 1 && other == kind) || j > |stdout| + 1 + |line|
  {
    var at := |stdout| + 1;
    forall i | at <= i < at + |line|
      ensures !EndsLine(s[i])
    {
      assert s[at + (i - at)] == line[i - at];
    }
    LineStartOutside(s, j, at, at + |line|);
    if j == at && other != kind {
      assert Marker(kind) <= s[at..];
      MarkersDiffer(kind, other, s[at..]);
    }
  }

  /** After the launcher's sentinel, and what may follow it, no sentinel is later. */
  lemma SentinelIsLast(s: string, stdout: string, kind: Kind, line: string, noise: string, other: Kind, j: nat)
    requires Layout(s, stdout, line, noise) && InLine(line) && Marker(kind) <= line && NoMarkers(noise)
    requires j in Sentinels(s, other)
    ensures j < |stdout| + 1 || (j == |stdout| + 1 && other == kind)
  {
    MarkerHere(s, other, j);
    OnlyOwnSentinel(s, stdout, kind, line, noise, other, j);
    if j > |stdout| + 1 + |line| {
      SuffixMarker(s, noise, other, |stdout| + 2 + |line|, j);
    }
  }

  lemma MarkerInLine(kind: Kind)
    ensures InLine(Marker(kind))
  {}

  lemma MatchAfterMarker(t: string, kind: Kind, marker: string, value: string, noise: string)
    requires t == marker + value + "\n" + noise && marker == Marker(kind)
    requires MatchValue(kind, value + "\n" + noise).Some?
    ensures MatchLine(kind, t).Some? && MatchLine(kind, t).value.values == MatchValue(kind, value + "\n" + noise).value.values
  {
    assert t == marker + (value + "\n" + noise);
    assert t[|marker|..] == value + "\n" + noise;
  }

  /** The sentinel's own match, whatever comes before and after it. */
  lemma SentinelMatches(s: string, stdout: string, kind: Kind, value: string, noise: string)
    requires Layout(s, stdout, Marker(kind) + value, noise) && MatchValue(kind, value + "\n" + noise).Some?
    ensures |stdout| + 1 in Sentinels(s, kind)
    ensures ValuesAt(s, kind, Some(|stdout| + 1)) == MatchValue(kind, value + "\n" + noise).value.values
  {
    MatchAfterMarker(s[|stdout| + 1..], kind, Marker(kind), value, noise);
    SentinelAt(s, kind, |stdout| + 1);
  }

  lemma StripsOneLineFeed(s: string, stdout: string, line: string, noise: string)
    requires Layout(s, stdout, line, noise)
    ensures WithoutPrivateMarker(s, |stdout| + 1) == stdout
  {}

  /** Only the launcher's own sentinel decides, for every output of the command. */
  lemma FinalSentinel(s: string, stdout: string, kind: Kind, line: string, noise: string)
    requires Layout(s, stdout, line, noise) && InLine(line) && Marker(kind) <= line && NoMarkers(noise)
    requires |stdout| + 1 in Sentinels(s, kind)
    ensures LastMarker(s, kind) == Some(|stdout| + 1)
    ensures forall other | other != kind :: LastMarker(s, other).Some? ==> LastMarker(s, other).value < |stdout| + 1
  {
    forall other
      ensures LastMarker(s, other).Some? ==>
                LastMarker(s, other).value < |stdout| + 1 || (LastMarker(s, other).value == |stdout| + 1 && other == kind)
    {
      if LastMarker(s, other).Some? {
        SentinelIsLast(s, stdout, kind, line, noise, other, LastMarker(s, other).value);
      }
    }
  }

  /** The launcher's text, taken apart. */
  lemma Printed(stdout: string, kind: Kind, value: string, noise: string) returns (s: string)
    requires InLine(value) && NoMarkers(noise) && MatchValue(kind, value + "\n" + noise).Some?
    ensures s == stdout + Sentinel(kind, value) + noise && |stdout| + 1 <= |s|
    ensures FoundLast(s, kind) == Found(Some(|stdout| + 1), MatchValue(kind, value + "\n" + noise).value.values)
    ensures forall other | other != kind :: FoundLast(s, other).index.Some? ==> FoundLast(s, other).index.value < |stdout| + 1
    ensures WithoutPrivateMarker(s, |stdout| + 1) == stdout
  {
    s := stdout + Sentinel(kind, value) + noise;
    LayoutOf(stdout, Marker(kind), value, noise);
    SentinelMatches(s, stdout, kind, value, noise);
    MarkerInLine(kind);
    LineOf(Marker(kind), value);
    FinalSentinel(s, stdout, kind, Marker(kind) + value, noise);
    StripsOneLineFeed(s, stdout, Marker(kind) + value, noise);
  }

  lemma LineOf(marker: string, value: string)
    requires InLine(marker) && InLine(value)
    ensures InLine(marker + value) && marker <= marker + value
  {}

  lemma Decides(s: string, at: nat, background: Found, timeout: Found, exit: Found, outcome: Option<Outcome>)
    requires background == FoundLast(s, Background) && timeout == FoundLast(s, Timeout) && exit == FoundLast(s, Exit)
    requires at <= |s|
    requires Decide(background, timeout, exit) == if outcome.Some? then Some((at, outcome.value)) else None
    ensures ParseSoftBackgroundOutcome(s) == if outcome.Some? then Some(Parsed(WithoutPrivateMarker(s, at), outcome.value)) else None
  {}

  lemma DigitsInLine(d: string)
    requires AllDigits(d)
    ensures InLine(d)
  {}

  lemma ExitMatches(code: int, noise: string)
    ensures MatchExit(Signed(code) + "\n" + noise) == Some(Match(|Signed(code)|, [Signed(code)]))
    ensures InLine(Signed(code))
  {
    var value := Signed(code);
    var digits := if code >= 0 then value else Digits(-code);
    var sign := if code >= 0 then "" else "-";
    var t := value + "\n" + noise;
    DigitRunStops(digits, "\n" + noise);
    assert t == sign + (digits + ("\n" + noise));
    assert t[|sign|..] == digits + ("\n" + noise);
    assert t[0] == value[0];
    assert code >= 0 ==> IsDigit(value[0]);
    assert t[..|value|] == value;
  }

  /** Every exit code and every output come back exactly. */
  lemma ExitRoundTrip(stdout: string, code: int, noise: string)
    requires NoMarkers(noise)
    ensures ParseSoftBackgroundOutcome(stdout + Sentinel(Exit, Signed(code)) + noise) == Some(Parsed(stdout, Exited(code)))
  {
    var value := Signed(code);
    ExitMatches(code, noise);
    var s := Printed(stdout, Exit, value, noise);
    SignedNumberOfSigned(code);
    Decides(s, |stdout| + 1, FoundLast(s, Background), FoundLast(s, Timeout), FoundLast(s, Exit), Some(Exited(code)));
  }

  lemma TimeoutRoundTrip(stdout: string, timeoutMs: nat, noise: string)
    requires NoMarkers(noise)
    ensures ParseSoftBackgroundOutcome(stdout + Sentinel(Timeout, Digits(timeoutMs)) + noise)
            == Some(Parsed(stdout, TimedOut(timeoutMs)))
  {
    var value := Digits(timeoutMs);
    DigitsInLine(value);
    var t := value + "\n" + noise;
    DigitRunStops(value, "\n" + noise);
    assert t == value + ("\n" + noise);
    assert MatchTimeout(t) == Some(Match(|value|, [value])) by { assert t[..|value|] == value; }
    var s := Printed(stdout, Timeout, value, noise);
    NumberOfDigits(timeoutMs);
    Decides(s, |stdout| + 1, FoundLast(s, Background), FoundLast(s, Timeout), FoundLast(s, Exit), Some(TimedOut(timeoutMs)));
  }

  /** A background hand-over with an absolute log path comes back exactly, if and
      only if its pid is one a process can have; otherwise nothing is parsed. */
  lemma BackgroundRoundTrip(stdout: string, pid: nat, log: string, noise: string)
    requires NoMarkers(noise) && log != "" && log[0] == '/' && InLine(log)
    ensures ParseSoftBackgroundOutcome(stdout + Sentinel(Background, Digits(pid) + ":" + log) + noise)
            == if 0 < pid <= MAX_PID then Some(Parsed(stdout, Backgrounded(pid, pid, None))) else None
  {
    var value := Digits(pid) + ":" + log;
    DigitsInLine(Digits(pid));
    BackgroundMatches(Digits(pid), log, noise);
    var s := Printed(stdout, Background, value, noise);
    NumberOfDigits(pid);
    Decides(s, |stdout| + 1, FoundLast(s, Background), FoundLast(s, Timeout), FoundLast(s, Exit),
            if 0 < pid <= MAX_PID then Some(Backgrounded(pid, pid, None)) else None);
  }

  /** A hand-over that names its pid and its output file comes back with both, if
      and only if the pid is one a process can have. */
  lemma BackgroundFileRoundTrip(stdout: string, shellId: nat, pid: nat, file: string, noise: string)
    requires NoMarkers(noise) && file != "" && InLine(file)
    ensures ParseSoftBackgroundOutcome(stdout + Sentinel(Background, Digits(shellId) + ":" + (Digits(pid) + ":" + file)) + noise)
            == if 0 < pid <= MAX_PID then Some(Parsed(stdout, Backgrounded(shellId, pid, Some(file)))) else None
  {
    var value := Digits(shellId) + ":" + (Digits(pid) + ":" + file);
    DigitsInLine(Digits(shellId));
    DigitsInLine(Digits(pid));
    FileMatches(Digits(shellId), Digits(pid), file, noise);
    var s := Printed(stdout, Background, value, noise);
    NumberOfDigits(shellId);
    NumberOfDigits(pid);
    Decides(s, |stdout| + 1, FoundLast(s, Background), FoundLast(s, Timeout), FoundLast(s, Exit),
            if 0 < pid <= MAX_PID then Some(Backgrounded(shellId, pid, Some(file))) else None);
  }

  lemma FileMatches(id: string, pid: string, file: string, noise: string)
    requires id != "" && AllDigits(id) && pid != "" && AllDigits(pid) && file != "" && InLine(file)
    ensures MatchBackground(id + ":" + (pid + ":" + file) + "\n" + noise)
            == Some(Match(|id| + 1 + (|pid| + 1 + |file|), [id, pid, file]))
  {
    var rest := pid + (":" + (file + ("\n" + noise)));
    Regroup(id, pid, file, noise);
    PidAndFile(pid, file, "\n" + noise, rest);
    IdAndRest(id, rest, Match(|pid| + 1 + |file|, [pid, file]));
    ThreeValues(id, pid, file);
  }

  lemma Regroup(id: string, pid: string, file: string, noise: string)
    ensures id + ":" + (pid + ":" + file) + "\n" + noise == id + (":" + (pid + (":" + (file + ("\n" + noise)))))
  {}

  lemma PidAndFile(pid: string, file: string, after: string, rest: string)
    requires pid != "" && AllDigits(pid) && file != "" && InLine(file) && after != "" && EndsLine(after[0])
    requires rest == pid + (":" + (file + after))
    ensures MatchRest(rest) == Some(Match(|pid| + 1 + |file|, [pid, file]))
  {
    AfterDigits(pid, file + after);
    LineRunStops(file, after);
    assert (file + after)[..|file|] == file;
    RestMatches(rest, pid, file + after, file);
  }

  lemma IdAndRest(id: string, rest: string, r: Match)
    requires id != "" && AllDigits(id) && MatchRest(rest) == Some(r)
    ensures MatchBackground(id + (":" + rest)) == Some(Match(|id| + 1 + r.length, [id] + r.values))
  {
    AfterDigits(id, rest);
  }

  /** Digits, a colon and what follows. */
  lemma AfterDigits(d: string, rest: string)
    requires AllDigits(d)
    ensures var t := d + (":" + rest);
            DigitRun(t) == |d| < |t| && t[..|d|] == d && t[|d|] == ':' && t[|d| + 1..] == rest
  {
    DigitRunStops(d, ":" + rest);
  }

  lemma ThreeValues(a: string, b: string, c: string)
    ensures [a] + [b, c] == [a, b, c]
  {}

  lemma RestMatches(rest: string, pid: string, last: string, file: string)
    requires 0 < |pid| == DigitRun(rest) < |rest| && rest[..|pid|] == pid && rest[|pid|] == ':' && rest[|pid| + 1..] == last
    requires 0 < |file| == LineRun(last) && last[..|file|] == file
    ensures MatchRest(rest) == Some(Match(|pid| + 1 + |file|, [pid, file]))
  {
    assert rest[|pid| + 1..|pid| + 1 + |file|] == last[..|file|];
  }

  /** Output without a sentinel is no outcome. */
  lemma NoSentinelNoOutcome(s: string)
    requires NoMarkers(s)
    ensures ParseSoftBackgroundOutcome(s) == None
  {}

  lemma BackgroundMatches(digits: string, log: string, noise: string)
    requires digits != "" && AllDigits(digits) && log != "" && log[0] == '/' && InLine(log)
    ensures MatchBackground(digits + ":" + log + "\n" + noise)
            == Some(Match(|digits| + 1 + |log|, [digits, "", log]))
  {
    var t := digits + ":" + log + "\n" + noise;
    var rest := log + ("\n" + noise);
    assert t == digits + (":" + rest);
    DigitRunStops(digits, ":" + rest);
    assert t[..|digits|] == digits && t[|digits|] == ':' && t[|digits| + 1..] == rest;
    LineRunStops(log, "\n" + noise);
    assert rest[..|log|] == log && DigitRun(rest) == 0;
    ThreeValues(digits, "", log);
  }

  // ---------------------------------------------------------------- the launcher

  /** How the launcher leaves: it hands a running payload off, stops one at the
      hard timeout, or waits for one that exited. */
  datatype Ending =
    | HandedOff(pid: nat, log: string)
    | Stopped(timeoutMs: nat)
    | Waited(code: nat)

  /** A hand-off names a pid and a log file by its absolute path. */
  predicate CanEnd(ending: Ending) {
    ending.HandedOff? ==> 0 < ending.pid <= MAX_PID && ending.log != "" && ending.log[0] == '/' && InLine(ending.log)
  }

  /** The payload's log, then the sentinel of the branch taken. */
  function Launched(stdout: string, ending: Ending): string {
    stdout + match ending
             case HandedOff(pid, log) => Sentinel(Background, Digits(pid) + ":" + log)
             case Stopped(timeoutMs) => Sentinel(Timeout, Digits(timeoutMs))
             case Waited(code) => Sentinel(Exit, Signed(code))
  }

  function OutcomeOf(ending: Ending): Outcome {
    match ending
    case HandedOff(pid, _) => Backgrounded(pid, pid, None)
    case Stopped(timeoutMs) => TimedOut(timeoutMs)
    case Waited(code) => Exited(code)
  }

  /** However the launcher ends and whatever the command printed, sentinels
      included, the parser gives back the command's output and the ending. */
  lemma LauncherRoundTrip(stdout: string, ending: Ending)
    requires CanEnd(ending)
    ensures ParseSoftBackgroundOutcome(Launched(stdout, ending)) == Some(Parsed(stdout, OutcomeOf(ending)))
  {
    NothingHasNoMarkers();
    assert Launched(stdout, ending) == Launched(stdout, ending) + "";
    match ending
    case HandedOff(pid, log) => BackgroundRoundTrip(stdout, pid, log, "");
    case Stopped(timeoutMs) => TimeoutRoundTrip(stdout, timeoutMs, "");
    case Waited(code) => ExitRoundTrip(stdout, code, "");
  }

  lemma SamePathAfter(stdout: string, marker: string, pid: string, log: string, log': string)
    requires stdout + ("\n" + marker + (pid + ":" + log) + "\n") == stdout + ("\n" + marker + (pid + ":" + log') + "\n")
    ensures log == log'
  {
    var before := stdout + "\n" + marker + pid + ":";
    assert stdout + ("\n" + marker + (pid + ":" + log) + "\n") == before + log + "\n";
    assert stdout + ("\n" + marker + (pid + ":" + log') + "\n") == before + log' + "\n";
    assert |log| == |log'|;
    assert (before + log + "\n")[|before|..|before| + |log|] == log;
    assert (before + log' + "\n")[|before|..|before| + |log|] == log';
  }

  /** So no two outputs or endings make the launcher print the same text. */
  lemma LaunchedIsUnambiguous(stdout: string, ending: Ending, stdout': string, ending': Ending)
    requires CanEnd(ending) && CanEnd(ending') && Launched(stdout, ending) == Launched(stdout', ending')
    ensures stdout == stdout' && ending == ending'
  {
    LauncherRoundTrip(stdout, ending);
    LauncherRoundTrip(stdout', ending');
    OutcomeFixesEnding(stdout, ending, ending');
  }

  lemma OutcomeFixesEnding(stdout: string, ending: Ending, ending': Ending)
    requires OutcomeOf(ending) == OutcomeOf(ending') && Launched(stdout, ending) == Launched(stdout, ending')
    ensures ending == ending'
  {
    if ending.HandedOff? {
      SamePathAfter(stdout, Marker(Background), Digits(ending.pid), ending.log, ending'.log);
    }
  }
}
