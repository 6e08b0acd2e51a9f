// Manager commands as text: formatted by man.c, stripped in place and scanned by host.c.
module Commands {
  import opened Types

  const BLANK: Byte := ' ' as int
  const CMD_STATE: Byte := 's' as int
  const CMD_DIR: Byte := 'm' as int
  const CMD_PING: Byte := 'p' as int
  const CMD_UPLOAD: Byte := 'u' as int
  const CMD_DOWNLOAD: Byte := 'd' as int
  const MAN_MSG_LENGTH := 1000
  const MINUS: Byte := '-' as int
  const ZERO: Byte := '0' as int

  datatype Command =
    | ShowState
    | SetDir(dir: Bytes)
    | Ping(dst: int)
    | Upload(dst: int, name: Bytes)
    | Download(dst: int, name: Bytes)

  predicate IsSpace(b: Byte) {
    b == BLANK || 9 <= b <= 13
  }

  predicate IsDigit(b: Byte) {
    ZERO <= b <= ZERO + 9
  }

  // A word as scanf("%s") delivers it: non-empty, no white space, no terminator inside.
  predicate IsWord(s: Bytes) {
    s != [] && forall i :: 0 <= i < |s| ==> !IsSpace(s[i]) && s[i] != 0
  }

  // The name, if any, fits the host's arrays for names, with its terminator.
  predicate Fits(c: Command) {
    match c
    case Upload(_, name) => |name| < NAME_MAX
    case Download(_, name) => |name| < NAME_MAX
    case _ => true
  }

  // ---- man.c: sprintf ----

  function Digits(n: nat): Bytes {
    if n < 10 then [ZERO + n] else Digits(n / 10) + [ZERO + n % 10]
  }

  // "%d"
  function Decimal(n: int): Bytes {
    if n < 0 then [MINUS] + Digits(-n) else Digits(n)
  }

  function Format(c: Command): Bytes {
    match c
    case ShowState => [CMD_STATE]
    case SetDir(d) => [CMD_DIR, BLANK] + d
    case Ping(dst) => [CMD_PING, BLANK] + Decimal(dst)
    case Upload(dst, name) => [CMD_UPLOAD, BLANK] + (Decimal(dst) + ([BLANK] + name))
    case Download(dst, name) => [CMD_DOWNLOAD, BLANK] + (Decimal(dst) + ([BLANK] + name))
  }

  // ---- host.c: stripping and sscanf ----

  function SkipBlanks(s: Bytes): (r: Bytes)
    ensures |r| <= |s|
  {
    if s != [] && s[0] == BLANK then SkipBlanks(s[1..]) else s
  }

  function SkipSpace(s: Bytes): Bytes {
    if s != [] && IsSpace(s[0]) then SkipSpace(s[1..]) else s
  }

  // The string a C function sees: everything before the terminator.
  function CString(s: Bytes): Bytes {
    if s == [] || s[0] == 0 then [] else [s[0]] + CString(s[1..])
  }

  // The text left after the command letter and the blanks round it.
  function Argument(message: Bytes): Bytes
    requires SkipBlanks(message) != []
  {
    SkipBlanks(SkipBlanks(message)[1..])
  }

  function ScanDigits(s: Bytes, value: nat): (int, Bytes) {
    if s != [] && IsDigit(s[0]) then ScanDigits(s[1..], value * 10 + (s[0] - ZERO)) else (value, s)
  }

  // "%d": None when there is no number (the C variable then keeps its old value).
  function ScanInt(s: Bytes): Option<(int, Bytes)> {
    var t := SkipSpace(s);
    if t != [] && IsDigit(t[0]) then Some(ScanDigits(t, 0))
    else if |t| > 1 && t[0] == MINUS && IsDigit(t[1]) then
      var (n, rest) := ScanDigits(t[1..], 0);
      Some((-n, rest))
    else None
  }

  function Word(s: Bytes): Bytes {
    if s == [] || IsSpace(s[0]) then [] else [s[0]] + Word(s[1..])
  }

  // "%s"
  function ScanWord(s: Bytes): Option<Bytes> {
    var t := Word(SkipSpace(s));
    if t == [] then None else Some(t)
  }

  function ScanIntWord(s: Bytes): Option<(int, Bytes)> {
    match ScanInt(s)
    case None => None
    case Some((n, rest)) => match ScanWord(rest) case None => None case Some(w) => Some((n, w))
  }

  // The command host_main executes for a message; None for one it ignores or only half scans.
  function Parse(message: Bytes): Option<Command> {
    if SkipBlanks(message) == [] then None
    else
      var c := SkipBlanks(message)[0];
      var arg := CString(Argument(message));
      if c == CMD_STATE then Some(ShowState)
      else if c == CMD_DIR then Some(SetDir(arg))
      else if c == CMD_PING then (match ScanInt(arg) case None => None case Some((n, _)) => Some(Ping(n)))
      else if c == CMD_UPLOAD then (match ScanIntWord(arg) case None => None case Some((n, w)) => Some(Upload(n, w)))
      else if c == CMD_DOWNLOAD then
        (match ScanIntWord(arg) case None => None case Some((n, w)) => Some(Download(n, w)))
      else None
  }

  predicate IsLetter(c: Byte) {
    c == CMD_STATE || c == CMD_DIR || c == CMD_PING || c == CMD_UPLOAD || c == CMD_DOWNLOAD
  }

  // A message that leaves no C variable of host_main undetermined: it has a letter, and what the
  // letter asks for can be scanned and fits.
  predicate Understood(message: Bytes) {
    && message != [] && |message| + 1 < MAN_MSG_LENGTH && SkipBlanks(message) != []
    && (IsLetter(SkipBlanks(message)[0]) ==> Parse(message).Some? && Fits(Parse(message).value))
  }

  // `for (; msg[i]==' ' && i<n; i++)`: the byte is looked at before the bound is, so `i` may
  // stand on the byte behind the message.
  method SkipBlanksFrom(msg: array<Byte>, start: nat, n: nat, ghost message: Bytes) returns (i: nat)
    requires start <= n + 1 < msg.Length && n == |message| && msg[..n] == message
    ensures start <= n ==> start <= i <= n && message[i..] == SkipBlanks(message[start..])
    ensures start > n ==> i == start
  {
    i := start;
    while msg[i] == BLANK && i < n
      invariant start <= i <= n + 1 && (start > n ==> i == start)
      invariant start <= n ==> i <= n && SkipBlanks(message[i..]) == SkipBlanks(message[start..])
      decreases n - i
    {
      assert message[i] == msg[..n][i] && message[i..][1..] == message[i + 1..];
      i := i + 1;
    }
    assert i < n ==> message[i] == msg[..n][i];
  }

  // Moves msg[i..n] to the front of the array and terminates it.
  method MoveToFront(msg: array<Byte>, i: nat, n: nat)
    requires n < msg.Length && i <= n + 1
    modifies msg
    ensures var rest := old(if i <= n then msg[i..n] else []);
      msg[..|rest|] == rest && msg[|rest|] == 0
  {
    var k := 0;
    while k + i < n
      invariant 0 <= k && (k > 0 ==> k + i <= n)
      invariant forall j :: 0 <= j < k ==> msg[j] == old(msg[j + i])
      invariant forall j :: k + i <= j < n ==> msg[j] == old(msg[j])
    {
      msg[k] := msg[k + i];
      k := k + 1;
    }
    msg[k] := 0;
  }

  // get_man_command: `message` is what read() put at the start of `msg`; strips it in place and
  // terminates the argument with a zero byte. A message of blanks only leaves the letter
  // undetermined.
  method GetManCommand(message: Bytes, msg: array<Byte>) returns (c: Byte)
    requires message != [] && |message| + 1 < msg.Length
    modifies msg
    ensures SkipBlanks(message) != [] ==>
      var arg := Argument(message);
      c == SkipBlanks(message)[0] && |arg| < msg.Length && msg[..|arg|] == arg && msg[|arg|] == 0
    ensures SkipBlanks(message) == [] ==> msg[0] == 0
  {
    var n := |message|;
    forall i | 0 <= i < n {
      msg[i] := message[i];
    }
    assert msg[..n] == message;
    var i := SkipBlanksFrom(msg, 0, n, message);
    assert message[0..] == message;
    c := msg[i];
    assert i < n ==> c == msg[..n][i] == message[i] && message[i..][1..] == message[i + 1..];
    i := SkipBlanksFrom(msg, i + 1, n, message);
    assert i <= n ==> msg[i..n] == msg[..n][i..] == message[i..];
    MoveToFront(msg, i, n);
  }

  // ---- Round trip ----

  lemma {:induction false} DigitsScanBack(n: nat, rest: Bytes)
    ensures Digits(n) != [] && IsDigit(Digits(n)[0])
    ensures ScanDigits(Digits(n) + rest, 0) == ScanDigits(rest, n)
    decreases n
  {
    if n < 10 {
      assert ([ZERO + n] + rest)[1..] == rest;
    } else {
      var last: Bytes := [ZERO + n % 10];
      DigitsScanBack(n / 10, last + rest);
      assert Digits(n) + rest == Digits(n / 10) + (last + rest);
      assert (last + rest)[1..] == rest;
    }
  }

  lemma DecimalScansBack(n: int, rest: Bytes)
    requires rest == [] || !IsDigit(rest[0])
    ensures ScanInt(Decimal(n) + rest) == Some((n, rest))
  {
    if n < 0 {
      DigitsScanBack(-n, rest);
      assert Decimal(n) + rest == [MINUS] + (Digits(-n) + rest);
      assert ([MINUS] + (Digits(-n) + rest))[1..] == Digits(-n) + rest;
    } else {
      DigitsScanBack(n, rest);
    }
  }

  lemma {:induction false} WordScansBack(w: Bytes)
    requires forall i :: 0 <= i < |w| ==> !IsSpace(w[i])
    ensures Word(w) == w
  {
    if w != [] {
      WordScansBack(w[1..]);
    }
  }

  lemma {:induction false} NoTerminator(s: Bytes)
    requires forall i :: 0 <= i < |s| ==> s[i] != 0
    ensures CString(s) == s
  {
    if s != [] {
      NoTerminator(s[1..]);
    }
  }

  lemma {:induction false} DigitsHaveNoTerminator(n: nat)
    ensures forall i :: 0 <= i < |Digits(n)| ==> IsDigit(Digits(n)[i])
  {
    if n >= 10 {
      DigitsHaveNoTerminator(n / 10);
    }
  }

  // The host recovers the letter and the argument text of any formatted command.
  lemma StripsBack(c: Byte, arg: Bytes)
    requires c != BLANK && arg != [] && arg[0] != BLANK && (forall i :: 0 <= i < |arg| ==> arg[i] != 0)
    ensures var m := [c, BLANK] + arg;
      SkipBlanks(m) == m && CString(Argument(m)) == arg
  {
    var m := [c, BLANK] + arg;
    assert m[1..] == [BLANK] + arg && ([BLANK] + arg)[1..] == arg;
    assert SkipBlanks([BLANK] + arg) == SkipBlanks(arg) == arg;
    NoTerminator(arg);
  }

  lemma LetterOnly(c: Byte)
    requires c != BLANK
    ensures SkipBlanks([c]) == [c] && Argument([c]) == []
  {
  }

  lemma IdOnly(c: Byte, dst: int)
    requires c != BLANK
    ensures var m := [c, BLANK] + Decimal(dst);
      SkipBlanks(m) == m && ScanInt(CString(Argument(m))) == Some((dst, []))
  {
    DecimalText(dst);
    StripsBack(c, Decimal(dst));
    hide SkipBlanks, Argument, CString, ScanInt;
    DecimalScansBack(dst, []);
    assert Decimal(dst) + [] == Decimal(dst);
  }

  // What the manager formats, the host parses back: same command, same id, same name.
  lemma CommandRoundTrip(c: Command)
    requires (c.SetDir? ==> IsWord(c.dir)) && (c.Upload? || c.Download? ==> IsWord(c.name))
    ensures Parse(Format(c)) == Some(c)
  {
    hide SkipBlanks, CString, Argument, ScanInt, ScanIntWord, Decimal;
    var m := Format(c);
    if c.ShowState? {
      LetterOnly(CMD_STATE);
    } else if c.SetDir? {
      StripsBack(CMD_DIR, c.dir);
    } else if c.Ping? {
      IdOnly(CMD_PING, c.dst);
    } else if c.Upload? {
      IdAndName(CMD_UPLOAD, c.dst, c.name);
    } else {
      IdAndName(CMD_DOWNLOAD, c.dst, c.name);
    }
  }

  lemma DecimalText(n: int)
    ensures Decimal(n) != [] && forall i :: 0 <= i < |Decimal(n)| ==> Decimal(n)[i] != 0 && Decimal(n)[i] != BLANK
  {
    DigitsHaveNoTerminator(if n < 0 then -n else n);
    DigitsScanBack(if n < 0 then -n else n, []);
  }

  lemma IdAndName(c: Byte, dst: int, name: Bytes)
    requires IsWord(name) && c != BLANK
    ensures var m := [c, BLANK] + (Decimal(dst) + ([BLANK] + name));
      SkipBlanks(m) == m && ScanIntWord(CString(Argument(m))) == Some((dst, name))
  {
    var tail: Bytes := [BLANK] + name;
    var arg := Decimal(dst) + tail;
    DecimalText(dst);
    StripsBack(c, arg);
    DecimalScansBack(dst, tail);
    assert tail[1..] == name;
    WordScansBack(name);
    assert SkipSpace(tail) == name;
  }

  // So every command the manager formats, if it fits the buffers, is one the host understands.
  lemma FormattedIsUnderstood(c: Command)
    requires (c.SetDir? ==> IsWord(c.dir)) && (c.Upload? || c.Download? ==> IsWord(c.name))
    requires Fits(c) && |Format(c)| + 1 < MAN_MSG_LENGTH
    ensures Understood(Format(c))
  {
    hide Format, IsWord;
    CommandRoundTrip(c);
  }
}
