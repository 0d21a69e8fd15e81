/** Reading tick counters out of /proc/<pid>/stat and /proc/stat. */
module ProcStat {
  import opened Arithmetic
  import opened Sampler
  import opened Wrappers

  // ---------- words ----------

  /** unicode.IsSpace */
  predicate IsSpace(c: char) {
    var code := c as int;
    || 0x09 <= code <= 0x0D || code == 0x20 || code == 0x85 || code == 0xA0 || code == 0x1680
    || 0x2000 <= code <= 0x200A || code == 0x2028 || code == 0x2029 || code == 0x202F || code == 0x205F
    || code == 0x3000
  }

  function WordLength(text: string): (n: nat)
    ensures n <= |text|
    ensures forall i :: 0 <= i < n ==> !IsSpace(text[i])
    ensures n < |text| ==> IsSpace(text[n])
  {
    if text == "" || IsSpace(text[0]) then 0 else 1 + WordLength(text[1..])
  }

  /** strings.Fields */
  function Fields(text: string): seq<string>
    decreases |text|
  {
    if text == "" then []
    else if IsSpace(text[0]) then Fields(text[1..])
    else [text[..WordLength(text)]] + Fields(text[WordLength(text)..])
  }

  predicate IsWord(w: string) {
    w != "" && forall i :: 0 <= i < |w| ==> !IsSpace(w[i])
  }

  /** Each word after a space. */
  function Spaced(words: seq<string>): string {
    if words == [] then "" else " " + words[0] + Spaced(words[1..])
  }

  lemma {:induction false} WordLengthIs(w: string, rest: string)
    requires forall i :: 0 <= i < |w| ==> !IsSpace(w[i])
    requires rest == "" || IsSpace(rest[0])
    ensures WordLength(w + rest) == |w|
  {
    if w == "" {
      assert w + rest == rest;
    } else {
      WordLengthIs(w[1..], rest);
      assert (w + rest)[1..] == w[1..] + rest;
    }
  }

  lemma FirstField(w: string, rest: string)
    requires IsWord(w) && (rest == "" || IsSpace(rest[0]))
    ensures Fields(" " + w + rest) == [w] + Fields(rest)
  {
    var text := " " + w + rest;
    assert text[1..] == w + rest;
    WordLengthIs(w, rest);
    assert (w + rest)[..|w|] == w && (w + rest)[|w|..] == rest;
  }

  lemma LineFeedEnds()
    ensures IsSpace('\n') && Fields("\n") == []
  {
    assert "\n"[1..] == "";
  }

  /** Splitting a printed line gives its words back. */
  lemma {:induction false} FieldsOfLine(words: seq<string>)
    requires forall i :: 0 <= i < |words| ==> IsWord(words[i])
    ensures Fields(Spaced(words) + "\n") == words
  {
    LineFeedEnds();
    if words == [] {
      assert Spaced(words) + "\n" == "\n";
    } else {
      var rest := Spaced(words[1..]) + "\n";
      FieldsOfLine(words[1..]);
      assert Spaced(words) + "\n" == " " + words[0] + rest;
      FirstField(words[0], rest);
    }
  }

  // ---------- numbers ----------

  predicate IsDigit(c: char) {
    '0' <= c <= '9'
  }

  function Digit(c: char): (d: nat)
    requires IsDigit(c)
    ensures d < 10
  {
    c as int - '0' as int
  }

  function Numeral(text: string): nat
    requires forall i :: 0 <= i < |text| ==> IsDigit(text[i])
  {
    if text == "" then 0 else 10 * Numeral(text[..|text| - 1]) + Digit(text[|text| - 1])
  }

  /** strconv.ParseUint in base 10 with 64 bits. */
  function ParseUint(text: string): Result<Word> {
    if text == "" || (exists i :: 0 <= i < |text| && !IsDigit(text[i])) then Err
    else if Numeral(text) >= WORD then Err
    else Ok(Numeral(text))
  }

  /** The %d of fmt. */
  function Decimal(n: nat): (text: string)
    ensures text != "" && forall i :: 0 <= i < |text| ==> IsDigit(text[i])
  {
    var last := [('0' as int + n % 10) as char];
    if n < 10 then last else Decimal(n / 10) + last
  }

  lemma {:induction false} NumeralOfDecimal(n: nat)
    ensures Numeral(Decimal(n)) == n
  {
    var last := [('0' as int + n % 10) as char];
    if n < 10 {
      assert last[..0] == "";
    } else {
      NumeralOfDecimal(n / 10);
      assert Decimal(n)[..|Decimal(n)| - 1] == Decimal(n / 10);
    }
  }

  lemma ParsePrinted(n: Word)
    ensures ParseUint(Decimal(n)) == Ok(n)
  {
    NumeralOfDecimal(n);
  }

  function Zeros(k: nat): (text: string)
    ensures |text| == k && forall i :: 0 <= i < k ==> text[i] == '0'
  {
    if k == 0 then "" else Zeros(k - 1) + "0"
  }

  lemma {:induction false} NumeralAfterZeros(k: nat, text: string)
    requires forall i :: 0 <= i < |text| ==> IsDigit(text[i])
    ensures Numeral(Zeros(k) + text) == Numeral(text)
    decreases k + |text|
  {
    if text != "" {
      NumeralAfterZeros(k, text[..|text| - 1]);
      assert (Zeros(k) + text)[..k + |text| - 1] == Zeros(k) + text[..|text| - 1];
    } else if k > 0 {
      NumeralAfterZeros(k - 1, "");
      assert Zeros(k) + "" == Zeros(k - 1) + "0";
      assert (Zeros(k - 1) + "0")[..k - 1] == Zeros(k - 1) + "";
    } else {
      assert Zeros(0) + "" == "";
    }
  }

  lemma NextDigit(m: nat, d: nat, c: char)
    requires m > 0 && d < 10 && c as int == '0' as int + d
    ensures Decimal(10 * m + d) == Decimal(m) + [c]
  {
    assert (10 * m + d) / 10 == m && (10 * m + d) % 10 == d;
  }

  lemma OneDigit(c: char)
    requires IsDigit(c)
    ensures Decimal(Digit(c)) == [c]
  {
  }

  lemma AppendDigit(k: nat, m: nat, c: char) returns (k': nat)
    requires IsDigit(c)
    ensures Zeros(k) + Decimal(m) + [c] == Zeros(k') + Decimal(10 * m + Digit(c))
  {
    if m > 0 {
      k' := k;
      NextDigit(m, Digit(c), c);
    } else {
      k' := k + 1;
      OneDigit(c);
      OneDigit('0');
    }
  }

  /** Every sequence of digits is a printed number after some zeros. */
  lemma {:induction false} DigitsArePrinted(text: string) returns (k: nat)
    requires text != "" && forall i :: 0 <= i < |text| ==> IsDigit(text[i])
    ensures text == Zeros(k) + Decimal(Numeral(text))
    decreases |text|
  {
    var n := |text| - 1;
    var front, c := text[..n], text[n];
    if front == "" {
      k := 0;
      OneDigit(c);
    } else {
      k := DigitsArePrinted(front);
      k := AppendDigit(k, Numeral(front), c);
      assert text == front + [c];
    }
  }

  /** ParseUint accepts exactly the 64-bit numbers in decimal, leading zeros included. */
  lemma ParseUintExactly(text: string, n: Word)
    ensures ParseUint(text) == Ok(n) <==> exists k: nat :: text == Zeros(k) + Decimal(n)
  {
    if ParseUint(text) == Ok(n) {
      var k := DigitsArePrinted(text);
    }
    if k: nat :| text == Zeros(k) + Decimal(n) {
      NumeralAfterZeros(k, Decimal(n));
      NumeralOfDecimal(n);
    }
  }

  lemma DecimalIsPlain(n: nat)
    ensures IsWord(Decimal(n)) && ')' !in Decimal(n)
  {
  }

  // ---------- /proc/<pid>/stat ----------

  datatype StatResult =
    | Stat(userTicks: Word, systemTicks: Word)
    | Malformed
    | InsufficientFields
    | BadUserTicks
    | BadSystemTicks

  /** strings.LastIndex with a single character. */
  function LastIndex(text: string, c: char): (i: int)
    ensures -1 <= i < |text|
    ensures i >= 0 ==> text[i] == c
    ensures forall j :: i < j < |text| ==> text[j] != c
  {
    if text == "" then -1
    else if text[|text| - 1] == c then |text| - 1
    else LastIndex(text[..|text| - 1], c)
  }

  function StatOfFields(fields: seq<string>): StatResult {
    if |fields| <= 12 then InsufficientFields
    else if ParseUint(fields[11]).Err? then BadUserTicks
    else if ParseUint(fields[12]).Err? then BadSystemTicks
    else Stat(ParseUint(fields[11]).value, ParseUint(fields[12]).value)
  }

  function ReadProcessStat(text: string): StatResult {
    var closing := LastIndex(text, ')');
    if closing < 0 then Malformed else StatOfFields(Fields(text[closing + 1..]))
  }

  ghost predicate PlainWords(words: seq<string>) {
    forall i :: 0 <= i < |words| ==> IsWord(words[i]) && ')' !in words[i]
  }

  lemma {:induction false} SpacedIsPlain(words: seq<string>)
    requires PlainWords(words)
    ensures ')' !in Spaced(words)
  {
    if words != [] {
      SpacedIsPlain(words[1..]);
    }
  }

  lemma {:induction false} LastIndexIs(head: string, c: char, tail: string)
    requires c !in tail
    ensures LastIndex(head + [c] + tail, c) == |head|
    decreases |tail|
  {
    var text := head + [c] + tail;
    if tail == "" {
      assert text[|text| - 1] == c;
    } else {
      var n := |tail| - 1;
      LastIndexIs(head, c, tail[..n]);
      assert tail[n] in tail;
      assert text[|text| - 1] == tail[n];
      assert text[..|text| - 1] == head + [c] + tail[..n];
    }
  }

  /** Only the words after the last parenthesis count, whatever the command before it looks like. */
  lemma CommandIsIrrelevant(head: string, words: seq<string>)
    requires PlainWords(words)
    ensures ReadProcessStat(head + ")" + Spaced(words) + "\n") == StatOfFields(words)
  {
    var tail := Spaced(words) + "\n";
    SpacedIsPlain(words);
    LastIndexIs(head, ')', tail);
    var text := head + ")" + tail;
    assert head + ")" + Spaced(words) + "\n" == text;
    assert text[|head| + 1..] == tail;
    FieldsOfLine(words);
  }

  /**
   What is printed is read: for every process ID, every command, every kernel field around them and every pair of
   tick counters.
   */
  lemma RoundTrip(
    pid: string, command: string, leading: seq<string>, trailing: seq<string>, userTicks: Word, systemTicks: Word)
    requires |leading| == 11 && PlainWords(leading) && PlainWords(trailing)
    ensures var words := leading + [Decimal(userTicks), Decimal(systemTicks)] + trailing;
            ReadProcessStat(pid + " (" + command + ")" + Spaced(words) + "\n") == Stat(userTicks, systemTicks)
  {
    var words := leading + [Decimal(userTicks), Decimal(systemTicks)] + trailing;
    DecimalIsPlain(userTicks);
    DecimalIsPlain(systemTicks);
    assert PlainWords(words);
    CommandIsIrrelevant(pid + " (" + command, words);
    ParsePrinted(userTicks);
    ParsePrinted(systemTicks);
  }

  const FIXTURE_LEADING := ["S", "1", "2", "3", "4", "5", "6", "7", "8", "9", "10"]
  const FIXTURE_TRAILING := ["0", "0", "0"]

  /** The printer of the repository's tests. */
  lemma FixtureRoundTrip(pid: nat, name: string, userTicks: Word, systemTicks: Word)
    ensures var words := FIXTURE_LEADING + [Decimal(userTicks), Decimal(systemTicks)] + FIXTURE_TRAILING;
            ReadProcessStat(Decimal(pid) + " (" + name + ")" + Spaced(words) + "\n") == Stat(userTicks, systemTicks)
  {
    RoundTrip(Decimal(pid), name, FIXTURE_LEADING, FIXTURE_TRAILING, userTicks, systemTicks);
  }

  /** A line without a parenthesis, or cut off before the counters, is an error. */
  lemma Rejected(text: string, head: string, words: seq<string>)
    requires PlainWords(words) && |words| <= 12
    ensures ReadProcessStat(text) == Malformed <==> ')' !in text
    ensures ReadProcessStat(head + ")" + Spaced(words) + "\n") == InsufficientFields
  {
    CommandIsIrrelevant(head, words);
  }

  // ---------- the cpu line of /proc/stat ----------

  function FirstLine(text: string): string {
    if text == "" || text[0] == '\n' then "" else [text[0]] + FirstLine(text[1..])
  }

  /** The sum of parsed fields, unless one cannot be parsed. */
  function TotalTicks(fields: seq<string>): Option<nat> {
    if fields == [] then Some(0)
    else
      var before, last := TotalTicks(fields[..|fields| - 1]), ParseUint(fields[|fields| - 1]);
      if before.None? || last.Err? then None else Some(before.value + last.value)
  }

  lemma WrapOnce(x: int, y: int)
    ensures (x % WORD + y) % WORD == (x + y) % WORD
  {
  }

  lemma {:induction false} OneBadField(fields: seq<string>, i: nat)
    requires i < |fields| && TotalTicks(fields[..i + 1]).None?
    ensures TotalTicks(fields).None?
    decreases |fields|
  {
    if i + 1 == |fields| {
      assert fields[..i + 1] == fields;
    } else {
      assert fields[..|fields| - 1][..i + 1] == fields[..i + 1];
      OneBadField(fields[..|fields| - 1], i);
    }
  }

  function SystemCpuTicks(content: string): Result<Word> {
    var fields := Fields(FirstLine(content));
    if |fields| < 2 || fields[0] != "cpu" then Err
    else
      var total := TotalTicks(fields[1..]);
      if total.None? then Err else Ok(total.value % WORD)
  }

  method ReadSystemCpuTicks(content: string) returns (ticks: Result<Word>)
    ensures ticks == SystemCpuTicks(content)
  {
    var fields := Fields(FirstLine(content));
    if |fields| < 2 || fields[0] != "cpu" {
      return Err;
    }
    var values := fields[1..];
    var total: Word := 0;
    for i := 0 to |values|
      invariant TotalTicks(values[..i]).Some? && total == TotalTicks(values[..i]).value % WORD
    {
      assert values[..i + 1][..i] == values[..i];
      var value := ParseUint(values[i]);
      if value.Err? {
        OneBadField(values, i);
        return Err;
      }
      WrapOnce(TotalTicks(values[..i]).value, value.value);
      total := Plus(total, value.value);
    }
    assert values[..|values|] == values;
    ticks := Ok(total);
  }

  lemma {:induction false} FirstLineIs(line: string, rest: string)
    requires '\n' !in line
    ensures FirstLine(line + "\n" + rest) == line
  {
    var text := line + "\n" + rest;
    if line != "" {
      FirstLineIs(line[1..], rest);
      assert text[1..] == line[1..] + "\n" + rest;
    }
  }

  lemma {:induction false} SpacedIsOneLine(words: seq<string>)
    requires forall i :: 0 <= i < |words| ==> IsWord(words[i])
    ensures '\n' !in Spaced(words)
  {
    if words != [] {
      LineFeedEnds();
      SpacedIsOneLine(words[1..]);
    }
  }

  lemma {:induction false} FieldsOfWords(words: seq<string>)
    requires forall i :: 0 <= i < |words| ==> IsWord(words[i])
    ensures Fields(Spaced(words)) == words
  {
    if words != [] {
      FieldsOfWords(words[1..]);
      FirstField(words[0], Spaced(words[1..]));
    }
  }

  /** The words of a first line like that of the kernel. */
  lemma CpuLine(words: seq<string>, rest: string)
    requires forall i :: 0 <= i < |words| ==> IsWord(words[i])
    ensures Fields(FirstLine("cpu " + Spaced(words) + "\n" + rest)) == ["cpu"] + words
  {
    var line, tail := "cpu " + Spaced(words), " " + Spaced(words);
    SpacedIsOneLine(words);
    FirstLineIs(line, rest);
    WordLengthIs("cpu", tail);
    assert line == "cpu" + tail;
    assert tail[1..] == Spaced(words);
    FieldsOfWords(words);
  }

  function Printed(values: seq<Word>): (words: seq<string>)
    ensures |words| == |values|
  {
    seq(|values|, i requires 0 <= i < |values| => Decimal(values[i]))
  }

  function Total(values: seq<Word>): int {
    if values == [] then 0 else Total(values[..|values| - 1]) + values[|values| - 1]
  }

  lemma {:induction false} TotalOfPrinted(values: seq<Word>)
    ensures TotalTicks(Printed(values)) == Some(Total(values))
  {
    if values != [] {
      var n := |values| - 1;
      TotalOfPrinted(values[..n]);
      assert Printed(values)[..n] == Printed(values[..n]);
      ParsePrinted(values[n]);
    }
  }

  /** The ticks of a printed cpu line are the sum of all its fields modulo 2^64, whatever lines follow. */
  lemma SystemRoundTrip(values: seq<Word>, rest: string)
    requires values != []
    ensures SystemCpuTicks("cpu " + Spaced(Printed(values)) + "\n" + rest)
         == Ok(Total(values) % 0x1_0000_0000_0000_0000)
  {
    forall i | 0 <= i < |values| ensures IsWord(Printed(values)[i]) {
      DecimalIsPlain(values[i]);
    }
    CpuLine(Printed(values), rest);
    TotalOfPrinted(values);
    assert (["cpu"] + Printed(values))[1..] == Printed(values);
  }

  lemma {:induction false} NoTotalExactly(fields: seq<string>)
    ensures TotalTicks(fields).None? <==> exists i :: 0 <= i < |fields| && ParseUint(fields[i]).Err?
  {
    if fields != [] {
      var n := |fields| - 1;
      NoTotalExactly(fields[..n]);
      assert forall i :: 0 <= i < n ==> fields[..n][i] == fields[i];
    }
  }

  /** A cpu line is refused exactly if it has no fields or one that is not a 64-bit number. */
  lemma SystemRejected(words: seq<string>, rest: string)
    requires forall i :: 0 <= i < |words| ==> IsWord(words[i])
    ensures SystemCpuTicks("cpu " + Spaced(words) + "\n" + rest).Err? <==>
            words == [] || exists i :: 0 <= i < |words| && ParseUint(words[i]).Err?
  {
    CpuLine(words, rest);
    assert (["cpu"] + words)[1..] == words;
    NoTotalExactly(words);
  }
}
