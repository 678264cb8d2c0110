/** Kubernetes minor versions such as "1.29": parsing, printing, the next one, and the range an add-on
    version supports. Integers are Go's 64-bit ints. */
module K8sMinor {
  import opened Ordering
  import opened Sequences
  import opened Wrappers

  const MIN_INT: int := -0x8000_0000_0000_0000
  const MAX_INT: int := 0x7FFF_FFFF_FFFF_FFFF

  predicate IsInt(n: int) {
    MIN_INT <= n <= MAX_INT
  }

  datatype Minor = Minor(major: int, minor: int)

  // Decimal numbers, as strconv reads and writes them.

  predicate IsDigit(c: char) {
    '0' <= c <= '9'
  }

  function DigitValue(c: char): int {
    c as int - '0' as int
  }

  function DigitChar(d: int): char
    requires 0 <= d < 10
  {
    ('0' as int + d) as char
  }

  predicate AllDigits(s: string) {
    forall c :: c in s ==> IsDigit(c)
  }

  function Value(s: string): int {
    if s == "" then 0 else Value(s[..|s| - 1]) * 10 + DigitValue(s[|s| - 1])
  }

  function Digits(n: nat): (s: string)
    ensures s != ""
  {
    if n < 10 then [DigitChar(n)] else Digits(n / 10) + [DigitChar(n % 10)]
  }

  function Itoa(n: int): string {
    if n < 0 then "-" + Digits(-n) else Digits(n)
  }

  function InRange(n: int): Option<int> {
    if IsInt(n) then Some(n) else None
  }

  function Atoi(s: string): Option<int> {
    var signed := s != "" && (s[0] == '-' || s[0] == '+');
    var digits := if signed then s[1..] else s;
    if digits == "" || !AllDigits(digits) then None
    else if signed && s[0] == '-' then InRange(-Value(digits))
    else InRange(Value(digits))
  }

  lemma {:induction false} DigitsRead(n: nat)
    ensures AllDigits(Digits(n)) && Value(Digits(n)) == n
  {
    if n < 10 {
      assert Value([DigitChar(n)]) == Value("") * 10 + n;
    } else {
      DigitsRead(n / 10);
      var s := Digits(n);
      assert s[..|s| - 1] == Digits(n / 10);
    }
  }

  lemma AtoiOfDigits(s: string)
    requires AllDigits(s) && s != ""
    ensures Atoi(s) == InRange(Value(s)) && Atoi("-" + s) == InRange(-Value(s))
  {
    assert s[0] in s;
    assert ("-" + s)[1..] == s;
  }

  lemma AtoiReadsItoa(n: int)
    ensures Atoi(Itoa(n)) == InRange(n)
  {
    var m := if n < 0 then -n else n;
    DigitsRead(m);
    AtoiOfDigits(Digits(m));
  }

  // Parsing.

  /** The position of the first dot, the length of the text if there is none. */
  function FirstDot(v: string): (i: nat)
    ensures i <= |v|
  {
    if v == "" || v[0] == '.' then 0 else 1 + FirstDot(v[1..])
  }

  /** How many digits the text starts with. */
  function DigitRun(s: string): (n: nat)
    ensures n <= |s|
  {
    if s == "" || !IsDigit(s[0]) then 0 else 1 + DigitRun(s[1..])
  }

  function Parse(v: string): Option<Minor> {
    var dot := FirstDot(v);
    if dot == 0 || dot >= |v| - 1 then None
    else
      var major, rest := Atoi(v[..dot]), v[dot + 1..];
      var end := DigitRun(rest);
      var minor := Atoi(rest[..end]);
      if major.None? || end == 0 || minor.None? then None else Some(Minor(major.value, minor.value))
  }

  method IndexOfDot(v: string) returns (dot: int)
    ensures dot == if FirstDot(v) < |v| then FirstDot(v) else -1
  {
    dot := -1;
    for i := 0 to |v|
      invariant dot == -1 && FirstDot(v) == i + FirstDot(v[i..])
    {
      if v[i] == '.' {
        dot := i;
        break;
      }
    }
  }

  method CountDigits(rest: string) returns (end: nat)
    ensures end == DigitRun(rest)
  {
    end := |rest|;
    for j := 0 to |rest|
      invariant end == |rest| && DigitRun(rest) == j + DigitRun(rest[j..])
    {
      if rest[j] < '0' || rest[j] > '9' {
        end := j;
        break;
      }
    }
  }

  method ParseK8sMinor(v: string) returns (major: int, minor: int, ok: bool)
    ensures ok <==> Parse(v).Some?
    ensures if ok then Parse(v) == Some(Minor(major, minor)) else major == 0 && minor == 0
  {
    if v == "" {
      return 0, 0, false;
    }
    var dot := IndexOfDot(v);
    if dot <= 0 || dot == |v| - 1 {
      return 0, 0, false;
    }
    var m := Atoi(v[..dot]);
    if m.None? {
      return 0, 0, false;
    }
    var rest := v[dot + 1..];
    var end := CountDigits(rest);
    if end == 0 {
      return 0, 0, false;
    }
    var n := Atoi(rest[..end]);
    if n.None? {
      return 0, 0, false;
    }
    return m.value, n.value, true;
  }

  function Format(m: Minor): (s: string)
    ensures s != ""
  {
    Itoa(m.major) + "." + Itoa(m.minor)
  }

  lemma {:induction false} FirstDotAfter(a: string, b: string)
    requires '.' !in a
    ensures FirstDot(a + "." + b) == |a|
  {
    if a != "" {
      FirstDotAfter(a[1..], b);
      assert (a + "." + b)[1..] == a[1..] + "." + b;
    }
  }

  lemma {:induction false} DigitRunAll(s: string)
    requires AllDigits(s)
    ensures DigitRun(s) == |s|
  {
    if s != "" {
      DigitRunAll(s[1..]);
    }
  }

  lemma ItoaHasNoDot(n: int)
    ensures '.' !in Itoa(n)
  {
    DigitsRead(if n < 0 then -n else n);
  }

  /** Printing and parsing again gives the version back, for every major and every minor that is not
      negative; a negative minor prints as text that does not parse. */
  lemma ParseReadsFormat(m: Minor)
    requires IsInt(m.major) && IsInt(m.minor)
    ensures Parse(Format(m)) == if m.minor >= 0 then Some(m) else None
  {
    var v := Format(m);
    ItoaHasNoDot(m.major);
    FirstDotAfter(Itoa(m.major), Itoa(m.minor));
    var dot := |Itoa(m.major)|;
    assert v[..dot] == Itoa(m.major) && v[dot + 1..] == Itoa(m.minor);
    AtoiReadsItoa(m.major);
    AtoiReadsItoa(m.minor);
    if m.minor >= 0 {
      DigitsRead(m.minor);
      DigitRunAll(Itoa(m.minor));
      assert Itoa(m.minor)[..|Itoa(m.minor)|] == Itoa(m.minor);
    } else {
      assert Itoa(m.minor)[0] == '-';
    }
  }

  /** The text is a number, a dot, a run of digits, and whatever may follow that is not a digit. */
  ghost predicate Reads(v: string, a: string, d: string, rest: string) {
    && v == a + "." + d + rest && a != "" && '.' !in a
    && d != "" && AllDigits(d) && (rest != "" ==> !('0' <= rest[0] <= '9'))
  }

  lemma {:induction false} DigitRunBefore(d: string, rest: string)
    requires AllDigits(d) && (rest != "" ==> !('0' <= rest[0] <= '9'))
    ensures DigitRun(d + rest) == |d|
  {
    if d == "" {
      assert d + rest == rest;
    } else {
      DigitRunBefore(d[1..], rest);
      assert (d + rest)[1..] == d[1..] + rest;
    }
  }

  lemma {:induction false} DigitRunEnds(s: string)
    ensures DigitRun(s) < |s| ==> !('0' <= s[DigitRun(s)] <= '9')
  {
    if s != "" && IsDigit(s[0]) {
      DigitRunEnds(s[1..]);
    }
  }

  lemma {:induction false} FirstDotIsFirst(v: string)
    ensures '.' !in v[..FirstDot(v)] && (FirstDot(v) < |v| ==> v[FirstDot(v)] == '.')
  {
    if v != "" && v[0] != '.' {
      FirstDotIsFirst(v[1..]);
      assert v[..FirstDot(v)] == [v[0]] + v[1..][..FirstDot(v[1..])];
    }
  }

  /** What is read, when the text has that form: the two numbers, if they fit 64 bits; what follows is ignored. */
  lemma ParseOfParts(v: string, a: string, d: string, rest: string)
    requires Reads(v, a, d, rest)
    ensures Parse(v) == if Atoi(a).Some? && Atoi(d).Some? then Some(Minor(Atoi(a).value, Atoi(d).value)) else None
  {
    assert v == a + "." + (d + rest);
    FirstDotAfter(a, d + rest);
    DigitRunBefore(d, rest);
    assert v[..|a|] == a && v[|a| + 1..] == d + rest && (d + rest)[..|d|] == d;
  }

  lemma AtDot(v: string, dot: nat)
    requires dot < |v| && v[dot] == '.'
    ensures v == v[..dot] + "." + v[dot + 1..]
  {
  }

  lemma CutAt(v: string, n: nat)
    requires n <= |v|
    ensures v == v[..n] + v[n..]
  {
  }

  lemma Joined(a: string, d: string, rest: string, tail: string)
    requires tail == d + rest
    ensures a + "." + tail == a + "." + d + rest
  {
  }

  /** Nothing else is read. */
  lemma ParseHasParts(v: string) returns (a: string, d: string, rest: string)
    requires Parse(v).Some?
    ensures Reads(v, a, d, rest)
  {
    var tail := v[FirstDot(v) + 1..];
    a, d, rest := v[..FirstDot(v)], tail[..DigitRun(tail)], tail[DigitRun(tail)..];
    FirstDotIsFirst(v);
    DigitRunIsDigits(tail);
    DigitRunEnds(tail);
    AtDot(v, FirstDot(v));
    CutAt(tail, DigitRun(tail));
    Joined(a, d, rest, tail);
  }

  /** Digits with at most one sign in front are a number, if it fits 64 bits; nothing else is. */
  lemma AtoiExactly(s: string)
    ensures Atoi(s).Some? ==> s != "" && (AllDigits(s) || (s[0] in {'+', '-'} && s[1..] != "" && AllDigits(s[1..])))
    ensures s != "" && AllDigits(s) ==>
              && Atoi(s) == (if Value(s) <= 0x7FFF_FFFF_FFFF_FFFF then Some(Value(s)) else None)
              && Atoi("+" + s) == Atoi(s)
              && Atoi("-" + s) == if Value(s) <= 0x8000_0000_0000_0000 then Some(-Value(s)) else None
  {
    if s != "" && AllDigits(s) {
      AtoiOfDigits(s);
      ValueIsNatural(s);
      assert ("+" + s)[1..] == s && s[0] in s;
    }
  }

  /** A number is printed without a needless zero or sign. */
  lemma {:induction false} DigitsAreCanonical(n: nat)
    ensures AllDigits(Digits(n)) && (n > 0 ==> Digits(n)[0] != '0') && Digits(0) == "0"
  {
    if n >= 10 {
      DigitsAreCanonical(n / 10);
    }
  }

  // The next minor.

  function Wrapped(n: int): int {
    if n > MAX_INT then n - (MAX_INT - MIN_INT + 1) else n
  }

  function NextMinor(v: string): string {
    var m := Parse(v);
    if m.None? then "" else Format(Minor(m.value.major, Wrapped(m.value.minor + 1)))
  }

  lemma ParsedIsInt(v: string)
    requires Parse(v).Some?
    ensures IsInt(Parse(v).value.major) && 0 <= Parse(v).value.minor <= MAX_INT
  {
    var rest := v[FirstDot(v) + 1..];
    DigitRunIsDigits(rest);
    ValueIsNatural(rest[..DigitRun(rest)]);
  }

  lemma {:induction false} DigitRunIsDigits(s: string)
    ensures AllDigits(s[..DigitRun(s)])
  {
    if s != "" && IsDigit(s[0]) {
      DigitRunIsDigits(s[1..]);
      assert s[..DigitRun(s)] == [s[0]] + s[1..][..DigitRun(s[1..])];
    }
  }

  lemma {:induction false} ValueIsNatural(s: string)
    requires AllDigits(s)
    ensures Value(s) >= 0
  {
    if s != "" {
      assert s[|s| - 1] in s && IsDigit(s[|s| - 1]);
      ValueIsNatural(s[..|s| - 1]);
    }
  }

  /** The next minor is the numeric successor exactly when the minor is not the largest int; there the
      sum wraps and the text no longer parses. Text that does not parse has no next minor. */
  lemma NextMinorIsSuccessor(v: string)
    ensures Parse(v).None? <==> NextMinor(v) == ""
    ensures Parse(v).Some? ==>
              var m := Parse(v).value;
              && Parse(NextMinor(v)) == (if m.minor < MAX_INT then Some(Minor(m.major, m.minor + 1)) else None)
              && (m.minor < 0x7FFF_FFFF_FFFF_FFFF ==> NextMinor(v) == Itoa(m.major) + "." + Itoa(m.minor + 1))
  {
    if Parse(v).Some? {
      ParsedIsInt(v);
      SuccessorParses(Parse(v).value);
    }
  }

  lemma SuccessorParses(m: Minor)
    requires IsInt(m.major) && 0 <= m.minor <= MAX_INT
    ensures Parse(Format(Minor(m.major, Wrapped(m.minor + 1))))
            == if m.minor < MAX_INT then Some(Minor(m.major, m.minor + 1)) else None
  {
    ParseReadsFormat(Minor(m.major, Wrapped(m.minor + 1)));
  }

  // The supported range.

  datatype Parsed = Parsed(raw: string, m: Minor)

  predicate MinorLe(a: Minor, b: Minor) {
    if a.major != b.major then a.major < b.major else a.minor <= b.minor
  }

  predicate ParsedLe(a: Parsed, b: Parsed) {
    MinorLe(a.m, b.m)
  }

  ghost predicate Parseable(versions: seq<string>, v: string) {
    v in versions && Parse(v).Some?
  }

  lemma EndsOf(out: seq<Parsed>, s: seq<Parsed>)
    requires s != [] && SortedBy(s, ParsedLe) && multiset(s) == multiset(out)
    ensures s[0] in out && s[|s| - 1] in out
    ensures forall p :: p in out ==> MinorLe(s[0].m, p.m) && MinorLe(p.m, s[|s| - 1].m)
  {
    assert s[0] in multiset(s) && s[|s| - 1] in multiset(s);
    forall p | p in out ensures MinorLe(s[0].m, p.m) && MinorLe(p.m, s[|s| - 1].m) {
      assert p in multiset(out);
      var i :| 0 <= i < |s| && s[i] == p;
      assert i > 0 ==> ParsedLe(s[0], s[i]);
      assert i < |s| - 1 ==> ParsedLe(s[i], s[|s| - 1]);
    }
  }

  lemma SortedEnds(out: seq<Parsed>)
    requires out != []
    ensures var s := Sort(out, ParsedLe);
            && |s| == |out| && s[0] in out && s[|s| - 1] in out
            && forall p :: p in out ==> MinorLe(s[0].m, p.m) && MinorLe(p.m, s[|s| - 1].m)
  {
    SortSorts(out, ParsedLe);
    EndsOf(out, Sort(out, ParsedLe));
  }

  /** Of the entries that some `parse` reads, the ends of the sorted list are the lowest and highest. */
  lemma EndsSpan(parse: string -> Option<Minor>, versions: seq<string>, out: seq<Parsed>)
    requires out != [] && forall p :: p in out ==> p.raw in versions && parse(p.raw) == Some(p.m)
    requires forall v :: v in versions && parse(v).Some? ==> Parsed(v, parse(v).value) in out
    ensures var s := Sort(out, ParsedLe); var lo, hi := s[0].raw, s[|s| - 1].raw;
            && |s| == |out| && lo in versions && hi in versions && parse(lo).Some? && parse(hi).Some?
            && forall v :: v in versions && parse(v).Some? ==>
                 MinorLe(parse(lo).value, parse(v).value) && MinorLe(parse(v).value, parse(hi).value)
  {
    SortedEnds(out);
  }

  /** The entries that parse, with what they parse to. */
  method ParseAll(versions: seq<string>) returns (out: seq<Parsed>)
    ensures forall p :: p in out ==> Parseable(versions, p.raw) && Parse(p.raw) == Some(p.m)
    ensures forall v :: Parseable(versions, v) ==> Parsed(v, Parse(v).value) in out
  {
    out := [];
    for i := 0 to |versions|
      invariant forall p :: p in out ==> Parseable(versions, p.raw) && Parse(p.raw) == Some(p.m)
      invariant forall v :: Parseable(versions[..i], v) ==> Parsed(v, Parse(v).value) in out
    {
      var major, minor, ok := ParseK8sMinor(versions[i]);
      if ok {
        out := out + [Parsed(versions[i], Minor(major, minor))];
      }
    }
    assert versions[..|versions|] == versions;
  }

  /** The numerically lowest and highest of the versions that parse, both empty if none does. */
  method CompatRange(versions: seq<string>) returns (lo: string, hi: string)
    ensures (forall v :: !Parseable(versions, v)) ==> lo == hi == ""
    ensures (exists v :: Parseable(versions, v)) ==> Parseable(versions, lo) && Parseable(versions, hi)
    ensures forall v :: Parseable(versions, v) ==>
              Parse(lo).Some? && Parse(hi).Some?
              && MinorLe(Parse(lo).value, Parse(v).value) && MinorLe(Parse(v).value, Parse(hi).value)
    ensures forall v :: Parseable(versions, v) ==>
              var l, m, h := Parse(lo).value, Parse(v).value, Parse(hi).value;
              (l.major < m.major || (l.major == m.major && l.minor <= m.minor))
              && (m.major < h.major || (m.major == h.major && m.minor <= h.minor))
  {
    if |versions| == 0 {
      return "", "";
    }
    var out := ParseAll(versions);
    if |out| == 0 {
      return "", "";
    }
    EndsSpan(Parse, versions, out);
    var s := Sort(out, ParsedLe);
    return s[0].raw, s[|s| - 1].raw;
  }
}
