// What the text of a command is, byte for byte, and what any text means to the host: decimal numbers as
// sums of powers of ten, words, letters and blanks.
module CommandTexts {
  import opened Types
  import opened Commands
  import opened Hosts

  // ---- Decimal numbers ----

  predicate AllDigits(ds: Bytes) {
    forall i :: 0 <= i < |ds| ==> '0' as int <= ds[i] <= '9' as int
  }

  function Pow10(n: nat): nat {
    if n == 0 then 1 else 10 * Pow10(n - 1)
  }

  // The number these digits stand for: each counts for its distance to '0' times a power of ten.
  function Value(ds: Bytes): int {
    if ds == [] then 0 else (ds[0] - '0' as int) * Pow10(|ds| - 1) + Value(ds[1..])
  }

  // Decimal notation: digits, no leading zero unless it is the only digit.
  ghost predicate Decimals(ds: Bytes) {
    ds != [] && AllDigits(ds) && (|ds| > 1 ==> ds[0] != '0' as int)
  }

  lemma {:induction false} ValueAppend(ds: Bytes, d: Byte)
    ensures Value(ds + [d]) == 10 * Value(ds) + (d - '0' as int)
  {
    if ds == [] {
      assert [] + [d] == [d] && [d][1..] == [];
    } else {
      assert (ds + [d])[0] == ds[0] && (ds + [d])[1..] == ds[1..] + [d];
      ValueAppend(ds[1..], d);
      assert Pow10(|ds|) == 10 * Pow10(|ds| - 1);
      Shifted(ds[0] - '0' as int, Pow10(|ds| - 1));
    }
  }

  lemma Shifted(d: int, p: int)
    ensures d * (10 * p) == 10 * (d * p)
  {
  }

  // What "%d" writes for a number that is not negative is its decimal notation.
  lemma {:induction false} DigitsAreDecimals(n: nat)
    ensures Decimals(Digits(n)) && Value(Digits(n)) == n
    ensures n > 0 ==> Digits(n)[0] != '0' as int
  {
    if n < 10 {
      assert Digits(n)[1..] == [];
    } else {
      DigitsAreDecimals(n / 10);
      var last: Byte := '0' as int + n % 10;
      ValueAppend(Digits(n / 10), last);
      assert Digits(n) == Digits(n / 10) + [last];
    }
  }

  lemma {:induction false} ValueNotNegative(ds: Bytes)
    requires AllDigits(ds)
    ensures Value(ds) >= 0
    ensures ds != [] && ds[0] != '0' as int ==> Value(ds) > 0
  {
    if ds != [] {
      assert forall i :: 0 <= i < |ds[1..]| ==> ds[1..][i] == ds[i + 1];
      ValueNotNegative(ds[1..]);
      PowPositive(|ds| - 1);
      var d, p := ds[0] - '0' as int, Pow10(|ds| - 1);
      assert d >= 0 && p > 0 ==> d * p >= 0;
      assert d > 0 && p > 0 ==> d * p > 0;
    }
  }

  lemma {:induction false} PowPositive(n: nat)
    ensures Pow10(n) > 0
  {
    if n > 0 {
      PowPositive(n - 1);
    }
  }

  // Decimal notation is unique, so it is what "%d" writes.
  lemma {:induction false} OneNotation(ds: Bytes)
    requires Decimals(ds)
    ensures Value(ds) >= 0 && Digits(Value(ds)) == ds
  {
    var front, last := ds[..|ds| - 1], ds[|ds| - 1];
    assert ds == front + [last];
    ValueNotNegative(ds);
    ValueAppend(front, last);
    if front == [] {
      assert Value(front) == 0;
    } else {
      assert AllDigits(front) && front[0] == ds[0];
      ValueNotNegative(front);
      OneNotation(front);
    }
  }

  // ---- Scanning numbers ----

  predicate AllSpace(s: Bytes) {
    forall i :: 0 <= i < |s| ==> SpaceChar(s[i])
  }

  predicate SpaceChar(b: Byte) {
    b == ' ' as int || b == '\t' as int || b == '\n' as int || b == 11 || b == 12 || b == '\r' as int
  }

  // The text starts with white space, an optional '-' and digits, and goes on with something else.
  ghost predicate IsNumber(s: Bytes, space: Bytes, minus: bool, ds: Bytes, rest: Bytes) {
    && s == space + ((if minus then ['-' as int] else []) + (ds + rest))
    && AllSpace(space) && ds != [] && AllDigits(ds)
    && (rest != [] ==> !('0' as int <= rest[0] <= '9' as int))
  }

  lemma {:induction false} DigitsScanned(ds: Bytes, rest: Bytes, v: nat)
    requires AllDigits(ds) && (rest != [] ==> !('0' as int <= rest[0] <= '9' as int))
    ensures ScanDigits(ds + rest, v) == (v * Pow10(|ds|) + Value(ds), rest)
    decreases |ds|
  {
    if ds == [] {
      assert [] + rest == rest;
    } else {
      assert (ds + rest)[0] == ds[0] && (ds + rest)[1..] == ds[1..] + rest;
      assert forall i :: 0 <= i < |ds[1..]| ==> ds[1..][i] == ds[i + 1];
      var d, p := ds[0] - '0' as int, Pow10(|ds| - 1);
      DigitsScanned(ds[1..], rest, v * 10 + d);
      Carried(v, d, p);
    }
  }

  lemma Carried(v: int, d: int, p: int)
    ensures (v * 10 + d) * p == v * (10 * p) + d * p
  {
    assert (v * 10 + d) * p == v * 10 * p + d * p;
  }

  lemma {:induction false} SpaceSkipped(space: Bytes, text: Bytes)
    requires AllSpace(space) && (text != [] ==> !SpaceChar(text[0]))
    ensures SkipSpace(space + text) == text
  {
    if space == [] {
      assert [] + text == text;
    } else {
      assert (space + text)[0] == space[0] && (space + text)[1..] == space[1..] + text;
      assert forall i :: 0 <= i < |space[1..]| ==> space[1..][i] == space[i + 1];
      SpaceSkipped(space[1..], text);
    }
  }

  lemma NumberScanned(s: Bytes, space: Bytes, minus: bool, ds: Bytes, rest: Bytes)
    requires IsNumber(s, space, minus, ds, rest)
    ensures ScanInt(s) == Some((if minus then -Value(ds) else Value(ds), rest))
  {
    var text := (if minus then ['-' as int] else []) + (ds + rest);
    SpaceSkipped(space, text);
    DigitsScanned(ds, rest, 0);
    assert minus ==> text[1..] == ds + rest;
    assert !minus ==> text == ds + rest;
    assert (ds + rest)[0] == ds[0];
  }

  // Any text cut behind its leading white space, and behind its leading digits.
  lemma {:induction false} CutSpace(s: Bytes) returns (space: Bytes)
    ensures s == space + SkipSpace(s) && AllSpace(space)
    ensures SkipSpace(s) != [] ==> !SpaceChar(SkipSpace(s)[0])
  {
    space := [];
    if s != [] && IsSpace(s[0]) {
      space := CutSpace(s[1..]);
      space := [s[0]] + space;
      assert s == [s[0]] + s[1..];
    } else {
      assert [] + s == s;
    }
  }

  lemma {:induction false} CutDigits(s: Bytes) returns (ds: Bytes, rest: Bytes)
    ensures s == ds + rest && AllDigits(ds)
    ensures rest != [] ==> !('0' as int <= rest[0] <= '9' as int)
    ensures s != [] && '0' as int <= s[0] <= '9' as int ==> ds != []
  {
    ds, rest := [], s;
    if s != [] && '0' as int <= s[0] <= '9' as int {
      ds, rest := CutDigits(s[1..]);
      ds := [s[0]] + ds;
      assert s == [s[0]] + s[1..];
    } else {
      assert [] + s == s;
    }
  }

  // "%d" finds the number n and leaves `rest` exactly if the text spells n before `rest`.
  lemma NumberMeans(s: Bytes, n: int, rest: Bytes)
    ensures ScanInt(s) == Some((n, rest)) <==>
      exists space, minus, ds :: IsNumber(s, space, minus, ds, rest) && n == if minus then -Value(ds) else Value(ds)
  {
    if ScanInt(s) == Some((n, rest)) {
      var space := CutSpace(s);
      var t := SkipSpace(s);
      var minus := t[0] == '-' as int;
      var ds, left := CutDigits(if minus then t[1..] else t);
      assert t == (if minus then ['-' as int] else []) + (ds + left);
      assert IsNumber(s, space, minus, ds, left);
      NumberScanned(s, space, minus, ds, left);
    }
    forall space, minus, ds | IsNumber(s, space, minus, ds, rest)
      ensures ScanInt(s) == Some((if minus then -Value(ds) else Value(ds), rest))
    {
      NumberScanned(s, space, minus, ds, rest);
    }
  }

  // ---- Scanning words ----

  ghost predicate IsWordIn(s: Bytes, space: Bytes, w: Bytes, rest: Bytes) {
    && s == space + (w + rest) && AllSpace(space) && w != []
    && (forall i :: 0 <= i < |w| ==> !SpaceChar(w[i])) && (rest != [] ==> SpaceChar(rest[0]))
  }

  lemma {:induction false} WordTaken(w: Bytes, rest: Bytes)
    requires (forall i :: 0 <= i < |w| ==> !SpaceChar(w[i])) && (rest != [] ==> SpaceChar(rest[0]))
    ensures Word(w + rest) == w
  {
    if w == [] {
      assert [] + rest == rest;
    } else {
      assert (w + rest)[0] == w[0] && (w + rest)[1..] == w[1..] + rest;
      WordTaken(w[1..], rest);
    }
  }

  lemma {:induction false} CutWord(s: Bytes) returns (rest: Bytes)
    ensures s == Word(s) + rest && (rest != [] ==> SpaceChar(rest[0]))
    ensures forall i :: 0 <= i < |Word(s)| ==> !SpaceChar(Word(s)[i])
  {
    rest := s;
    if s == [] || IsSpace(s[0]) {
      assert [] + s == s;
    } else {
      rest := CutWord(s[1..]);
      assert s == [s[0]] + s[1..];
    }
  }

  // "%s" finds the word w exactly if it is the first word of the text.
  lemma WordMeans(s: Bytes, w: Bytes)
    ensures ScanWord(s) == Some(w) <==> exists space, rest :: IsWordIn(s, space, w, rest)
  {
    if ScanWord(s) == Some(w) {
      var space := CutSpace(s);
      var rest := CutWord(SkipSpace(s));
      assert IsWordIn(s, space, w, rest);
    }
    forall space, rest | IsWordIn(s, space, w, rest)
      ensures ScanWord(s) == Some(w)
    {
      assert (w + rest)[0] == w[0];
      SpaceSkipped(space, w + rest);
      WordTaken(w, rest);
    }
  }

  // ---- The text of a command ----

  // Decimal notation of any number.
  ghost predicate DecimalOf(text: Bytes, n: int) {
    if n < 0 then text != [] && text[0] == '-' as int && Decimals(text[1..]) && Value(text[1..]) == -n
    else Decimals(text) && Value(text) == n
  }

  lemma DecimalMeans(text: Bytes, n: int)
    ensures text == Decimal(n) <==> DecimalOf(text, n)
  {
    DigitsAreDecimals(if n < 0 then -n else n);
    if n < 0 {
      assert Decimal(n)[1..] == Digits(-n);
      if DecimalOf(text, n) {
        OneNotation(text[1..]);
        assert text == [text[0]] + text[1..];
      }
    } else if DecimalOf(text, n) {
      OneNotation(text);
    }
  }

  // What the manager writes for a command: the letter the host looks for, and what goes with it, with
  // blanks in between.
  ghost predicate IsText(text: Bytes, c: Command) {
    match c
    case ShowState => |text| == 1 && text[0] == 's' as int
    case SetDir(d) => |text| >= 2 && text[0] == 'm' as int && text[1] == ' ' as int && text[2..] == d
    case Ping(dst) => |text| >= 2 && text[0] == 'p' as int && text[1] == ' ' as int && DecimalOf(text[2..], dst)
    case Upload(dst, name) => |text| >= 2 && text[0] == 'u' as int && text[1] == ' ' as int
                              && IsIdAndName(text[2..], dst, name)
    case Download(dst, name) => |text| >= 2 && text[0] == 'd' as int && text[1] == ' ' as int
                                && IsIdAndName(text[2..], dst, name)
  }

  ghost predicate IsIdAndName(text: Bytes, dst: int, name: Bytes) {
    var k := |text| - |name| - 1;
    k >= 0 && DecimalOf(text[..k], dst) && text[k] == ' ' as int && text[k + 1..] == name
  }

  lemma LetterAndRest(text: Bytes, a: Byte, b: Byte, rest: Bytes)
    ensures text == [a, b] + rest <==> |text| >= 2 && text[0] == a && text[1] == b && text[2..] == rest
  {
    if |text| >= 2 && text[0] == a && text[1] == b && text[2..] == rest {
      assert text == text[..2] + text[2..];
    }
  }

  lemma IdAndNameMeans(text: Bytes, dst: int, name: Bytes)
    ensures text == Decimal(dst) + ([BLANK] + name) <==> IsIdAndName(text, dst, name)
  {
    var k := |text| - |name| - 1;
    if k >= 0 {
      DecimalMeans(text[..k], dst);
      hide Decimal, DecimalOf;
      CutAt(text, Decimal(dst), ' ' as int, name, k);
    }
  }

  lemma CutAt(text: Bytes, front: Bytes, b: Byte, back: Bytes, k: nat)
    requires k == |text| - |back| - 1
    ensures text == front + ([b] + back) <==> text[..k] == front && text[k] == b && text[k + 1..] == back
  {
    if text == front + ([b] + back) {
      assert text[..k] == front && text[k + 1..] == back;
    }
    if text[..k] == front && text[k] == b && text[k + 1..] == back {
      assert text == text[..k] + ([text[k]] + text[k + 1..]);
    }
  }

  // Format writes exactly that text.
  lemma FormatMeans(text: Bytes, c: Command)
    ensures text == Format(c) <==> IsText(text, c)
  {
    hide Decimal, DecimalOf, IsIdAndName;
    match c
    case ShowState =>
    case SetDir(d) => LetterAndRest(text, 'm' as int, ' ' as int, d);
    case Ping(dst) =>
      LetterAndRest(text, 'p' as int, ' ' as int, Decimal(dst));
      if |text| >= 2 {
        DecimalMeans(text[2..], dst);
      }
    case Upload(dst, name) =>
      LetterAndRest(text, 'u' as int, ' ' as int, Decimal(dst) + ([BLANK] + name));
      if |text| >= 2 {
        IdAndNameMeans(text[2..], dst, name);
      }
    case Download(dst, name) =>
      LetterAndRest(text, 'd' as int, ' ' as int, Decimal(dst) + ([BLANK] + name));
      if |text| >= 2 {
        IdAndNameMeans(text[2..], dst, name);
      }
  }

  // ---- What a message means to the host ----

  // The first byte that is not a blank, and the first one after it that is not.
  ghost predicate IsMessage(message: Bytes, i: nat, letter: Byte, j: nat, arg: Bytes) {
    && i < j <= |message| && message[i] == letter != ' ' as int && message[j..] == arg
    && (forall k :: 0 <= k < i ==> message[k] == ' ' as int) && (forall k :: i < k < j ==> message[k] == ' ' as int)
    && (arg != [] ==> arg[0] != ' ' as int)
  }

  lemma {:induction false} BlanksSkipped(s: Bytes, i: nat)
    requires i <= |s| && (forall k :: 0 <= k < i ==> s[k] == ' ' as int) && (i < |s| ==> s[i] != ' ' as int)
    ensures SkipBlanks(s) == s[i..]
    decreases i
  {
    if i > 0 {
      assert forall k :: 0 <= k < |s[1..]| ==> s[1..][k] == s[k + 1];
      BlanksSkipped(s[1..], i - 1);
      assert s[1..][i - 1..] == s[i..];
    } else {
      assert s[0..] == s;
    }
  }

  lemma MessageParts(message: Bytes, i: nat, letter: Byte, j: nat, arg: Bytes)
    requires IsMessage(message, i, letter, j, arg)
    ensures SkipBlanks(message) != [] && SkipBlanks(message)[0] == letter && Argument(message) == arg
  {
    BlanksSkipped(message, i);
    var behind := message[i..][1..];
    assert forall k :: 0 <= k < |behind| ==> behind[k] == message[i + 1 + k];
    assert behind[j - i - 1..] == arg;
    assert j < |message| ==> message[j] == arg[0];
    BlanksSkipped(behind, j - i - 1);
  }

  // The numbers and words of the argument, up to a zero byte, decide what is executed.
  ghost predicate Spells(arg: Bytes, dst: int) {
    exists space, minus, ds, rest ::
      IsNumber(arg, space, minus, ds, rest) && dst == if minus then -Value(ds) else Value(ds)
  }

  ghost predicate SpellsWith(arg: Bytes, dst: int, name: Bytes) {
    exists space, minus, ds, rest, gap, more ::
      && IsNumber(arg, space, minus, ds, rest) && dst == (if minus then -Value(ds) else Value(ds))
      && IsWordIn(rest, gap, name, more)
  }

  ghost predicate MeansCommand(letter: Byte, arg: Bytes, c: Command) {
    match c
    case ShowState => letter == 's' as int
    case SetDir(d) => letter == 'm' as int && d == arg
    case Ping(dst) => letter == 'p' as int && Spells(arg, dst)
    case Upload(dst, name) => letter == 'u' as int && SpellsWith(arg, dst, name)
    case Download(dst, name) => letter == 'd' as int && SpellsWith(arg, dst, name)
  }

  lemma SpellsMeans(arg: Bytes, dst: int)
    ensures Spells(arg, dst) <==> ScanInt(arg).Some? && ScanInt(arg).value.0 == dst
  {
    hide ScanInt, IsNumber, Value;
    if Spells(arg, dst) {
      var space, minus, ds, rest :|
        IsNumber(arg, space, minus, ds, rest) && dst == if minus then -Value(ds) else Value(ds);
      NumberMeans(arg, dst, rest);
    }
    if ScanInt(arg).Some? && ScanInt(arg).value.0 == dst {
      NumberMeans(arg, dst, ScanInt(arg).value.1);
    }
  }

  lemma SpellsWithMeans(arg: Bytes, dst: int, name: Bytes)
    ensures SpellsWith(arg, dst, name) <==> ScanIntWord(arg) == Some((dst, name))
  {
    hide ScanInt, ScanWord, IsNumber, IsWordIn, Value;
    if SpellsWith(arg, dst, name) {
      var space, minus, ds, rest, gap, more :|
        && IsNumber(arg, space, minus, ds, rest) && dst == (if minus then -Value(ds) else Value(ds))
        && IsWordIn(rest, gap, name, more);
      NumberMeans(arg, dst, rest);
      WordMeans(rest, name);
    }
    if ScanIntWord(arg) == Some((dst, name)) {
      var rest := ScanInt(arg).value.1;
      NumberMeans(arg, dst, rest);
      WordMeans(rest, name);
    }
  }

  // Whatever blanks surround the letter: the host executes a command exactly if the letter and the argument
  // mean it.
  lemma ParseMeans(message: Bytes, i: nat, letter: Byte, j: nat, arg: Bytes, c: Command)
    requires IsMessage(message, i, letter, j, arg)
    ensures Parse(message) == Some(c) <==> MeansCommand(letter, CString(arg), c)
  {
    MessageParts(message, i, letter, j, arg);
    hide IsMessage, SkipBlanks, Argument, CString, ScanInt, ScanIntWord, Spells, SpellsWith;
    var text := CString(arg);
    match c
    case ShowState =>
    case SetDir(d) =>
    case Ping(dst) => SpellsMeans(text, dst);
    case Upload(dst, name) => SpellsWithMeans(text, dst, name);
    case Download(dst, name) => SpellsWithMeans(text, dst, name);
  }

  // Up to the first zero byte.
  lemma {:induction false} CStringMeans(s: Bytes, t: Bytes)
    ensures t == CString(s) <==>
      t <= s && (forall i :: 0 <= i < |t| ==> t[i] != 0) && (|t| < |s| ==> s[|t|] == 0)
  {
    if s != [] && s[0] != 0 {
      if t != [] {
        CStringMeans(s[1..], t[1..]);
        assert t == [t[0]] + t[1..] && s == [s[0]] + s[1..];
        assert forall i :: 0 <= i < |t[1..]| ==> t[1..][i] == t[i + 1];
        assert t <= s <==> t[0] == s[0] && t[1..] <= s[1..];
      }
    }
  }

  // The argument spells some number, or some number and a name that fits its array.
  ghost predicate SpellsNumber(arg: Bytes) {
    exists dst :: Spells(arg, dst)
  }

  ghost predicate SpellsShortName(arg: Bytes) {
    exists dst, name :: SpellsWith(arg, dst, name) && |name| <= 99
  }

  lemma SpellsNumberMeans(arg: Bytes)
    ensures SpellsNumber(arg) <==> ScanInt(arg).Some?
  {
    hide ScanInt, Spells;
    if SpellsNumber(arg) {
      var dst :| Spells(arg, dst);
      SpellsMeans(arg, dst);
    }
    if ScanInt(arg).Some? {
      SpellsMeans(arg, ScanInt(arg).value.0);
    }
  }

  lemma SpellsShortNameMeans(arg: Bytes)
    ensures SpellsShortName(arg) <==> ScanIntWord(arg).Some? && |ScanIntWord(arg).value.1| <= 99
  {
    hide ScanIntWord, SpellsWith;
    if SpellsShortName(arg) {
      var dst, name :| SpellsWith(arg, dst, name) && |name| <= 99;
      SpellsWithMeans(arg, dst, name);
    }
    if ScanIntWord(arg).Some? {
      SpellsWithMeans(arg, ScanIntWord(arg).value.0, ScanIntWord(arg).value.1);
    }
  }

  // Which messages the host process can be given: not too long, and with an argument that spells what the
  // letter asks for. Other letters are ignored.
  lemma UnderstoodMeans(message: Bytes, i: nat, letter: Byte, j: nat, arg: Bytes)
    requires IsMessage(message, i, letter, j, arg)
    ensures Understood(message) <==>
      && |message| <= 998
      && (letter == 'p' as int ==> SpellsNumber(CString(arg)))
      && (letter == 'u' as int || letter == 'd' as int ==> SpellsShortName(CString(arg)))
  {
    MessageParts(message, i, letter, j, arg);
    SpellsNumberMeans(CString(arg));
    SpellsShortNameMeans(CString(arg));
    hide IsMessage, SkipBlanks, Argument, CString, ScanInt, ScanIntWord, SpellsNumber, SpellsShortName;
    assert |message| > 0;
  }

  // ---- Exactly which commands come back from their text ----

  predicate NoZero(s: Bytes) {
    forall i :: 0 <= i < |s| ==> s[i] != 0
  }

  predicate OneWord(s: Bytes) {
    s != [] && NoZero(s) && forall i :: 0 <= i < |s| ==> !SpaceChar(s[i])
  }

  lemma WordMeansWord(s: Bytes)
    ensures IsWord(s) <==> OneWord(s)
  {
    assert forall i :: 0 <= i < |s| ==> (IsSpace(s[i]) <==> SpaceChar(s[i]));
  }

  lemma {:induction false} CStringConcat(a: Bytes, b: Bytes)
    requires NoZero(a)
    ensures CString(a + b) == a + CString(b)
  {
    if a == [] {
      assert [] + b == b;
    } else {
      assert (a + b)[0] == a[0] && (a + b)[1..] == a[1..] + b;
      CStringConcat(a[1..], b);
    }
  }

  lemma WordComesBack(name: Bytes)
    ensures ScanWord([BLANK] + CString(name)) == Some(name) <==> OneWord(name)
  {
    var rest := [BLANK] + CString(name);
    WordMeans(rest, name);
    CStringMeans(name, CString(name));
    if OneWord(name) {
      NoTerminator(name);
      assert [BLANK] + name == [BLANK] + (name + []);
      assert IsWordIn(rest, [BLANK], name, []);
    }
    if ScanWord(rest) == Some(name) {
      var space, more :| IsWordIn(rest, space, name, more);
      forall i | 0 <= i < |name|
        ensures name[i] != 0
      {
        assert name[i] == rest[|space| + i];
      }
    }
  }

  lemma IdAndNameScanned(letter: Byte, dst: int, name: Bytes)
    requires letter != ' ' as int
    ensures var m := [letter, BLANK] + (Decimal(dst) + ([BLANK] + name));
      && SkipBlanks(m) != [] && SkipBlanks(m)[0] == letter
      && (ScanIntWord(CString(Argument(m))) == Some((dst, name)) <==> OneWord(name))
  {
    var arg := Decimal(dst) + ([BLANK] + name);
    var m := [letter, BLANK] + arg;
    DecimalText(dst);
    assert m[2..] == arg && IsMessage(m, 0, letter, 2, arg);
    MessageParts(m, 0, letter, 2, arg);
    CStringConcat(Decimal(dst), [BLANK] + name);
    CStringConcat([BLANK], name);
    DecimalScansBack(dst, [BLANK] + CString(name));
    WordComesBack(name);
    hide ScanInt, ScanWord, CString, Decimal, Argument, SkipBlanks, OneWord;
  }

  lemma {:induction false} LeadingBlanks(d: Bytes)
    ensures SkipBlanks([BLANK] + d) == SkipBlanks(d)
    ensures SkipBlanks(d) == d <==> d == [] || d[0] != ' ' as int
  {
    assert ([BLANK] + d)[1..] == d;
  }

  lemma DirectoryScanned(d: Bytes)
    ensures var m := [CMD_DIR, BLANK] + d;
      && SkipBlanks(m) == m && (CString(Argument(m)) == d <==> NoZero(d) && (d == [] || d[0] != ' ' as int))
  {
    var m := [CMD_DIR, BLANK] + d;
    assert m[1..] == [BLANK] + d;
    LeadingBlanks(d);
    CStringMeans(SkipBlanks(d), d);
  }

  // The host recovers a formatted command exactly if its name is one word without a zero byte; a directory
  // may hold blanks, but not at its start.
  lemma ComesBackIff(c: Command)
    ensures Parse(Format(c)) == Some(c) <==>
      match c
      case SetDir(d) => NoZero(d) && (d == [] || d[0] != ' ' as int)
      case Upload(_, name) => OneWord(name)
      case Download(_, name) => OneWord(name)
      case _ => true
  {
    match c
    case SetDir(d) => DirectoryScanned(d);
    case Upload(dst, name) => IdAndNameScanned(CMD_UPLOAD, dst, name);
    case Download(dst, name) => IdAndNameScanned(CMD_DOWNLOAD, dst, name);
    case _ => CommandRoundTrip(c);
  }

  // ---- Replies as text ----

  const NO_DIRECTORY: Bytes := ['N' as int, 'o' as int, 'n' as int, 'e' as int]

  // What a host writes: its directory, or "None", a blank and its id; the answers to a ping are sentences with
  // a terminator.
  function ReplyText(r: Reply): Bytes {
    match r
    case HostState(dir, id) => (if dir.Some? then dir.value else NO_DIRECTORY) + ([BLANK] + Decimal(id))
    case PingAcked => TextOf("Ping acked!") + [0]
    case PingTimedOut => TextOf("Ping time out!") + [0]
  }

  function TextOf(s: string): Bytes
    requires forall i :: 0 <= i < |s| ==> s[i] < 128 as char
  {
    seq(|s|, i requires 0 <= i < |s| => s[i] as int)
  }

  // sscanf(reply, "%s %d", ...)
  function ScanState(s: Bytes): Option<(Bytes, int)> {
    var t := SkipSpace(s);
    var w := Word(t);
    if w == [] || |w| > |t| then None
    else match ScanInt(t[|w|..]) case None => None case Some((n, _)) => Some((w, n))
  }

  lemma WordBefore(d: Bytes, rest: Bytes)
    requires OneWord(d) && rest != [] && rest[0] == BLANK
    ensures ScanState(d + rest) == match ScanInt(rest) case None => None case Some((n, _)) => Some((d, n))
  {
    var s := d + rest;
    assert s[0] == d[0];
    SpaceSkipped([], s);
    assert [] + s == s;
    WordTaken(d, rest);
    assert s[|d|..] == rest;
  }

  lemma BlankAndNumber(n: int)
    ensures ScanInt([BLANK] + Decimal(n)) == Some((n, []))
  {
    var s: Bytes := [BLANK] + Decimal(n);
    assert s[1..] == Decimal(n) && Decimal(n) + [] == Decimal(n);
    assert SkipSpace(s) == SkipSpace(Decimal(n));
    hide SkipSpace, Decimal, ScanDigits;
    DecimalScansBack(n, []);
  }

  // The manager reads a state reply right exactly if the directory is one word; without a directory it reads
  // "None".
  lemma StateIsRead(dir: Option<Bytes>, id: Byte)
    requires dir.Some? ==> NoZero(dir.value)
    ensures dir.None? ==> ScanState(ReplyText(HostState(dir, id))) == Some((NO_DIRECTORY, id as int))
    ensures dir.Some? ==>
      (ScanState(ReplyText(HostState(dir, id))) == Some((dir.value, id as int)) <==> OneWord(dir.value))
  {
    var d, rest := if dir.Some? then dir.value else NO_DIRECTORY, [BLANK] + Decimal(id);
    BlankAndNumber(id);
    ReadsOneWord(d + rest);
    if OneWord(d) {
      WordBefore(d, rest);
    }
  }

  lemma ReadsOneWord(s: Bytes)
    ensures ScanState(s).Some? ==>
      var w := ScanState(s).value.0; w != [] && forall i :: 0 <= i < |w| ==> !SpaceChar(w[i])
  {
    var rest := CutWord(SkipSpace(s));
  }

  lemma SameFront(a: Bytes, b: Bytes, x: Bytes, y: Bytes)
    requires OneWord(a) && OneWord(b) && a + ([BLANK] + x) == b + ([BLANK] + y)
    ensures a == b && x == y
  {
    WordTaken(a, [BLANK] + x);
    WordTaken(b, [BLANK] + y);
    assert (a + ([BLANK] + x))[|a| + 1..] == x && (b + ([BLANK] + y))[|b| + 1..] == y;
  }

  // Different states look different, but for one: a directory called "None" looks like no directory.
  lemma SameStateText(a: Option<Bytes>, b: Option<Bytes>, id: Byte, id': Byte)
    requires (a.Some? ==> OneWord(a.value)) && (b.Some? ==> OneWord(b.value))
    ensures ReplyText(HostState(a, id)) == ReplyText(HostState(b, id')) <==>
      id == id' && (a == b || (a.None? && b == Some(NO_DIRECTORY)) || (b.None? && a == Some(NO_DIRECTORY)))
  {
    var x, y := if a.Some? then a.value else NO_DIRECTORY, if b.Some? then b.value else NO_DIRECTORY;
    if ReplyText(HostState(a, id)) == ReplyText(HostState(b, id')) {
      SameFront(x, y, Decimal(id), Decimal(id'));
      BlankAndNumber(id);
      BlankAndNumber(id');
    }
  }
}
